/**
 * The entry table as a value: what loading one repository's index file contributes, and
 * what the table holds after a load. The class in index.dfy is proved against these.
 */
module Table {
  import opened Options
  import opened Charts
  import opened SemVer

  /** The highest version of a non-empty list of versions; the earliest one on a tie. */
  function Latest(vs: seq<ChartVersion>): (r: ChartVersion)
    requires vs != []
    ensures r in vs
  {
    if |vs| == 1 then vs[0]
    else
      var rest := Latest(vs[1..]);
      if VersionLess(vs[0].version, rest.version) then rest else vs[0]
  }

  /** No version of the list sorts above the one Latest selects. */
  lemma {:induction false} LatestIsHighest(vs: seq<ChartVersion>)
    requires vs != []
    ensures forall v :: v in vs ==> !VersionLess(Latest(vs).version, v.version)
  {
    if |vs| == 1 {
      VersionLessIrreflexive(vs[0].version);
    } else {
      LatestIsHighest(vs[1..]);
      var rest := Latest(vs[1..]);
      VersionLessIrreflexive(vs[0].version);
      forall v | v in vs ensures !VersionLess(Latest(vs).version, v.version) {
        if v != vs[0] {
          assert v in vs[1..];
          if !VersionLess(vs[0].version, rest.version) {
            VersionLessNegTransitive(vs[0].version, rest.version, v.version);
          }
        } else if VersionLess(vs[0].version, rest.version) {
          VersionLessTotal(vs[0].version, rest.version);
          if VersionLess(rest.version, vs[0].version) {
            VersionLessTransitive(rest.version, vs[0].version, rest.version);
            VersionLessIrreflexive(rest.version);
          }
        }
      }
    }
  }

  /**
   * Include-all mode for one chart: one entry per version, keyed by its version string;
   * a version string listed twice keeps the later listing.
   */
  function VersionEntries(repo: string, name: string, vs: seq<ChartVersion>): (m: map<Key, ChartVersion>)
    ensures forall k :: k in m ==> k.repo == repo && k.chart == name && k.version.Some?
    ensures forall k :: k in m ==> m[k] in vs && m[k].version == k.version.value
    ensures forall v :: v in vs ==> Key(repo, name, Some(v.version)) in m
  {
    if vs == [] then map[]
    else
      var last := vs[|vs| - 1];
      VersionEntries(repo, name, vs[..|vs| - 1])[Key(repo, name, Some(last.version)) := last]
  }

  /** What one chart of a repository's index file contributes to the table. */
  function PackageEntries(repo: string, name: string, vs: seq<ChartVersion>, all: bool): (m: map<Key, ChartVersion>)
    ensures forall k :: k in m ==> k.repo == repo && k.chart == name
  {
    if vs == [] then map[]
    else if all then VersionEntries(repo, name, vs)
    else map[Key(repo, name, None) := Latest(vs)]
  }

  /**
   * A non-empty chart contributes at least one entry; every entry holds one of the
   * chart's listed versions and carries a version string exactly in include-all mode.
   */
  lemma PackageEntriesValues(repo: string, name: string, vs: seq<ChartVersion>, all: bool)
    ensures var m := PackageEntries(repo, name, vs, all);
      (m == map[] <==> vs == []) && forall k :: k in m ==> m[k] in vs && (k.version.Some? <==> all)
  {
    if vs != [] && all {
      assert Key(repo, name, Some(vs[0].version)) in VersionEntries(repo, name, vs);
    }
  }

  /** The keys the charts `names` of a repository's index file contribute. */
  function RepoKeys(repo: string, entries: Entries, names: set<string>, all: bool): set<Key> {
    set n, k | n in names && n in entries && k in PackageEntries(repo, n, entries[n], all) :: k
  }

  /** What the charts `names` of a repository's index file contribute to the table. */
  function RepoEntries(repo: string, entries: Entries, names: set<string>, all: bool): (m: map<Key, ChartVersion>)
    ensures forall k :: k in m ==> k.repo == repo && k.chart in names && k.chart in entries
  {
    map k | k in RepoKeys(repo, entries, names, all) :: PackageEntries(repo, k.chart, entries[k.chart], all)[k]
  }

  /** The table without the entries of repository `repo`. */
  function Drop(table: map<Key, ChartVersion>, repo: string): map<Key, ChartVersion> {
    map k | k in table && k.repo != repo :: table[k]
  }

  /** The table after loading `entries` as repository `repo`: its earlier entries are replaced. */
  function WithRepo(table: map<Key, ChartVersion>, repo: string, entries: Entries, all: bool): (m: map<Key, ChartVersion>)
    ensures forall k :: k in table && k.repo != repo ==> k in m && m[k] == table[k]
    ensures forall k :: k in m && k.repo == repo ==> k.chart in entries
  {
    Drop(table, repo) + RepoEntries(repo, entries, entries.Keys, all)
  }

  lemma RepoEntriesNone(repo: string, entries: Entries, all: bool)
    ensures RepoEntries(repo, entries, {}, all) == map[]
  {
  }

  /** Adding one chart name to the loaded set adds exactly that chart's entries. */
  lemma RepoEntriesStep(repo: string, entries: Entries, names: set<string>, n: string, all: bool)
    requires n in entries
    ensures RepoEntries(repo, entries, names + {n}, all)
         == RepoEntries(repo, entries, names, all) + PackageEntries(repo, n, entries[n], all)
  {
    var lhs := RepoEntries(repo, entries, names + {n}, all);
    var rhs := RepoEntries(repo, entries, names, all) + PackageEntries(repo, n, entries[n], all);
    forall k | k in rhs ensures k in lhs && lhs[k] == rhs[k] {
      if k in PackageEntries(repo, n, entries[n], all) {
        assert k in RepoKeys(repo, entries, names + {n}, all);
      } else {
        assert k in RepoKeys(repo, entries, names, all);
        assert k in RepoKeys(repo, entries, names + {n}, all);
      }
    }
    forall k | k in lhs ensures k in rhs {
      if k.chart != n {
        assert k in RepoKeys(repo, entries, names, all);
      }
    }
  }

  /** An index file of one chart contributes that chart's entries. */
  lemma RepoEntriesOfOne(repo: string, entries: Entries, n: string, all: bool)
    requires entries.Keys == {n}
    ensures RepoEntries(repo, entries, entries.Keys, all) == PackageEntries(repo, n, entries[n], all)
  {
    assert entries.Keys == {} + {n};
    RepoEntriesNone(repo, entries, all);
    RepoEntriesStep(repo, entries, {}, n, all);
  }

  /** An index file of three charts contributes the entries of each. */
  lemma RepoEntriesOfThree(repo: string, entries: Entries, n1: string, n2: string, n3: string, all: bool)
    requires entries.Keys == {n1, n2, n3}
    ensures RepoEntries(repo, entries, entries.Keys, all)
         == PackageEntries(repo, n1, entries[n1], all) + PackageEntries(repo, n2, entries[n2], all)
          + PackageEntries(repo, n3, entries[n3], all)
  {
    var p1 := PackageEntries(repo, n1, entries[n1], all);
    var s1 := {} + {n1};
    var s2 := s1 + {n2};
    assert entries.Keys == s2 + {n3};
    RepoEntriesNone(repo, entries, all);
    RepoEntriesStep(repo, entries, {}, n1, all);
    assert map[] + p1 == p1;
    RepoEntriesStep(repo, entries, s1, n2, all);
    RepoEntriesStep(repo, entries, s2, n3, all);
  }

  /** Loading two different repositories into an empty table gives the union of what each contributes. */
  lemma WithTwoRepos(r1: string, e1: Entries, r2: string, e2: Entries, all: bool)
    requires r1 != r2
    ensures WithRepo(WithRepo(map[], r1, e1, all), r2, e2, all)
         == RepoEntries(r1, e1, e1.Keys, all) + RepoEntries(r2, e2, e2.Keys, all)
  {
    var first := WithRepo(map[], r1, e1, all);
    assert first == RepoEntries(r1, e1, e1.Keys, all) by {
      assert Drop(map[], r1) == map[];
    }
    assert Drop(first, r2) == first;
  }

  /** Distinct version strings: the invariant of a chart's version list. */
  predicate DistinctVersions(vs: seq<ChartVersion>) {
    forall i, j :: 0 <= i < j < |vs| ==> vs[i].version != vs[j].version
  }

  /** How many entries a chart contributes: one, or one per version in include-all mode. */
  function PackageCount(vs: seq<ChartVersion>, all: bool): nat {
    if vs == [] then 0 else if all then |vs| else 1
  }

  /** The sum of PackageCount over the charts `names`. */
  function EntryCount(entries: Entries, names: seq<string>, all: bool): nat {
    if names == [] then 0
    else
      var n := names[|names| - 1];
      EntryCount(entries, names[..|names| - 1], all) + (if n in entries then PackageCount(entries[n], all) else 0)
  }

  lemma {:induction false} VersionEntriesCount(repo: string, name: string, vs: seq<ChartVersion>)
    requires DistinctVersions(vs)
    ensures |VersionEntries(repo, name, vs)| == |vs|
  {
    if vs != [] {
      var init := vs[..|vs| - 1];
      var last := vs[|vs| - 1];
      VersionEntriesCount(repo, name, init);
      assert Key(repo, name, Some(last.version)) !in VersionEntries(repo, name, init);
    }
  }

  lemma PackageEntriesCount(repo: string, name: string, vs: seq<ChartVersion>, all: bool)
    requires DistinctVersions(vs)
    ensures |PackageEntries(repo, name, vs, all)| == PackageCount(vs, all)
  {
    if vs != [] && all {
      VersionEntriesCount(repo, name, vs);
    }
  }

  /** The chart names a list holds. */
  function NameSet(names: seq<string>): set<string> {
    set n | n in names
  }

  /** The names of a non-empty list are those of all but its last element, and the last. */
  lemma NameSetSnoc(names: seq<string>)
    requires names != []
    ensures NameSet(names) == NameSet(names[..|names| - 1]) + {names[|names| - 1]}
  {
    assert names == names[..|names| - 1] + [names[|names| - 1]];
  }

  /**
   * The number of entries a repository contributes is the sum, over its charts, of one
   * per chart (default mode) or one per version (include-all mode).
   */
  lemma {:induction false} RepoEntriesCount(repo: string, entries: Entries, names: seq<string>, all: bool)
    requires forall i, j :: 0 <= i < j < |names| ==> names[i] != names[j]
    requires forall n :: n in names ==> n in entries && DistinctVersions(entries[n])
    ensures |RepoEntries(repo, entries, NameSet(names), all)| == EntryCount(entries, names, all)
  {
    if names == [] {
      assert NameSet(names) == {};
      RepoEntriesNone(repo, entries, all);
    } else {
      var init := names[..|names| - 1];
      var n := names[|names| - 1];
      NameSetSnoc(names);
      RepoEntriesCount(repo, entries, init, all);
      assert n !in NameSet(init);
      RepoEntriesCountStep(repo, entries, NameSet(init), n, all);
    }
  }

  /** Loading one more chart adds its own count of entries. */
  lemma RepoEntriesCountStep(repo: string, entries: Entries, done: set<string>, n: string, all: bool)
    requires n in entries && n !in done && DistinctVersions(entries[n])
    ensures |RepoEntries(repo, entries, done + {n}, all)|
         == |RepoEntries(repo, entries, done, all)| + PackageCount(entries[n], all)
  {
    var before := RepoEntries(repo, entries, done, all);
    var added := PackageEntries(repo, n, entries[n], all);
    RepoEntriesStep(repo, entries, done, n, all);
    DisjointUnionCount(before, added);
    PackageEntriesCount(repo, n, entries[n], all);
  }

  lemma DisjointUnionCount(a: map<Key, ChartVersion>, b: map<Key, ChartVersion>)
    requires forall k :: k in a ==> k !in b
    ensures |a + b| == |a| + |b|
  {
    assert (a + b).Keys == a.Keys + b.Keys;
    assert a.Keys * b.Keys == {};
  }

  /** Loading a repository leaves every other repository's entries as they were. */
  lemma WithRepoKeepsOthers(table: map<Key, ChartVersion>, repo: string, entries: Entries, all: bool, k: Key)
    requires k.repo != repo
    ensures k in WithRepo(table, repo, entries, all) <==> k in table
    ensures k in table ==> WithRepo(table, repo, entries, all)[k] == table[k]
  {
  }

  /** Loading a repository again replaces what the earlier load contributed: the last load wins. */
  lemma WithRepoReplaces(table: map<Key, ChartVersion>, repo: string, e1: Entries, a1: bool, e2: Entries, a2: bool)
    ensures WithRepo(WithRepo(table, repo, e1, a1), repo, e2, a2) == WithRepo(table, repo, e2, a2)
  {
    var first := WithRepo(table, repo, e1, a1);
    assert Drop(first, repo) == Drop(table, repo);
  }

  /**
   * In the default mode every non-empty chart of the loaded repository has exactly one
   * entry, holding a version no other version of that chart sorts above.
   */
  lemma WithRepoStoresLatest(table: map<Key, ChartVersion>, repo: string, entries: Entries, n: string)
    requires n in entries && entries[n] != []
    ensures Key(repo, n, None) in WithRepo(table, repo, entries, false)
    ensures var cv := WithRepo(table, repo, entries, false)[Key(repo, n, None)];
            cv in entries[n] && forall v :: v in entries[n] ==> !VersionLess(cv.version, v.version)
    ensures forall k :: k in WithRepo(table, repo, entries, false) && k.repo == repo && k.chart == n ==> k == Key(repo, n, None)
  {
    var k := Key(repo, n, None);
    assert k in PackageEntries(repo, n, entries[n], false);
    assert k in RepoKeys(repo, entries, entries.Keys, false);
    LatestIsHighest(entries[n]);
    DefaultKeysUnversioned(table, repo, entries);
  }

  /** In the default mode no entry of the loaded repository carries a version string. */
  lemma DefaultKeysUnversioned(table: map<Key, ChartVersion>, repo: string, entries: Entries)
    ensures forall k :: k in WithRepo(table, repo, entries, false) && k.repo == repo ==> k.version.None?
  {
    forall k | k in WithRepo(table, repo, entries, false) && k.repo == repo
      ensures k.version.None?
    {
      assert k in RepoEntries(repo, entries, entries.Keys, false);
      assert k in RepoKeys(repo, entries, entries.Keys, false);
      var n :| n in entries.Keys && n in entries && k in PackageEntries(repo, n, entries[n], false);
    }
  }

  /** In include-all mode every version of every chart of the loaded repository has its own entry. */
  lemma WithRepoStoresEveryVersion(table: map<Key, ChartVersion>, repo: string, entries: Entries, n: string, v: ChartVersion)
    requires n in entries && v in entries[n]
    ensures Key(repo, n, Some(v.version)) in WithRepo(table, repo, entries, true)
    ensures var cv := WithRepo(table, repo, entries, true)[Key(repo, n, Some(v.version))];
            cv in entries[n] && cv.version == v.version
  {
    var k := Key(repo, n, Some(v.version));
    assert k in PackageEntries(repo, n, entries[n], true);
    assert k in RepoKeys(repo, entries, entries.Keys, true);
  }
}
