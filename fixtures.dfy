/**
 * The session the search tests run against: two repositories, `testing` with three charts
 * (one of them in two versions) and `ztesting` with a second `pinta`, loaded into a fresh
 * index in the default mode or in include-all mode.
 */
module Fixtures {
  import opened Options
  import opened Text
  import opened SemVer
  import opened Charts
  import opened Table
  import opened Matching
  import opened Search
  import opened Ranking

  const Nina := ChartVersion("ni√±a", "0.1.0", "One boat", ["http://example.com/charts/nina-0.1.0.tgz"])
  const Pinta := ChartVersion("pinta", "0.1.0", "Two ship", ["http://example.com/charts/pinta-0.1.0.tgz"])
  const SantaMaria := ChartVersion("santa-maria", "1.2.3", "Three boat", ["http://example.com/charts/santa-maria-1.2.3.tgz"])
  const SantaMariaRC := ChartVersion("santa-maria", "1.2.2-RC-1", "Three boat", ["http://example.com/charts/santa-maria-1.2.2-rc-1.tgz"])
  const Pinta2 := ChartVersion("pinta", "2.0.0", "Two ship, version two", ["http://example.com/charts/pinta-2.0.0.tgz"])

  /** The index file of repository `testing`. */
  const TestingEntries: Entries := map["ni√±a" := [Nina], "pinta" := [Pinta], "santa-maria" := [SantaMaria, SantaMariaRC]]

  /** The index file of repository `ztesting`. */
  const ZTestingEntries: Entries := map["pinta" := [Pinta2]]

  /** The table after loading `testing` and then `ztesting` into an empty index. */
  function TestTable(all: bool): map<Key, ChartVersion> {
    WithRepo(WithRepo(map[], "testing", TestingEntries, all), "ztesting", ZTestingEntries, all)
  }

  /** The table of the default mode, written out: one entry per (repository, chart). */
  const DefaultTable: map<Key, ChartVersion> := map[
    Key("testing", "ni√±a", None) := Nina,
    Key("testing", "pinta", None) := Pinta,
    Key("testing", "santa-maria", None) := SantaMaria,
    Key("ztesting", "pinta", None) := Pinta2]

  /** The table of include-all mode, written out: one entry per version. */
  const AllTable: map<Key, ChartVersion> := map[
    Key("testing", "ni√±a", Some("0.1.0")) := Nina,
    Key("testing", "pinta", Some("0.1.0")) := Pinta,
    Key("testing", "santa-maria", Some("1.2.3")) := SantaMaria,
    Key("testing", "santa-maria", Some("1.2.2-RC-1")) := SantaMariaRC,
    Key("ztesting", "pinta", Some("2.0.0")) := Pinta2]

  /** A release sorts above the pre-release of the lower patch, and not the other way round. */
  lemma ReleaseNotBelowPreRelease()
    ensures !VersionLess("1.2.3", "1.2.2-RC-1")
  {
    ReleaseAbovePreRelease();
    if VersionLess("1.2.3", "1.2.2-RC-1") {
      VersionLessTransitive("1.2.3", "1.2.2-RC-1", "1.2.3");
      VersionLessIrreflexive("1.2.3");
    }
  }

  lemma LatestSantaMaria()
    ensures Latest([SantaMaria, SantaMariaRC]) == SantaMaria
  {
    ReleaseNotBelowPreRelease();
    assert [SantaMaria, SantaMariaRC][1..] == [SantaMariaRC];
  }

  /** A map written out with three distinct keys has those keys and those values. */
  lemma ThreeKeys<V>(n1: string, v1: V, n2: string, v2: V, n3: string, v3: V)
    requires n1 != n2 && n1 != n3 && n2 != n3
    ensures var m := map[n1 := v1, n2 := v2, n3 := v3];
            m.Keys == {n1, n2, n3} && m[n1] == v1 && m[n2] == v2 && m[n3] == v3
  {
  }

  lemma TestingLoaded(all: bool)
    ensures RepoEntries("testing", TestingEntries, TestingEntries.Keys, all)
         == PackageEntries("testing", "ni√±a", [Nina], all)
          + PackageEntries("testing", "pinta", [Pinta], all)
          + PackageEntries("testing", "santa-maria", [SantaMaria, SantaMariaRC], all)
  {
    assert "ni√±a" != "pinta" by { assert "ni√±a"[0] != "pinta"[0]; }
    assert |"ni√±a"| != |"santa-maria"| && |"pinta"| != |"santa-maria"|;
    ThreeKeys("ni√±a", [Nina], "pinta", [Pinta], "santa-maria", [SantaMaria, SantaMariaRC]);
    RepoEntriesOfThree("testing", TestingEntries, "ni√±a", "pinta", "santa-maria", all);
  }

  lemma ZTestingLoaded(all: bool)
    ensures RepoEntries("ztesting", ZTestingEntries, ZTestingEntries.Keys, all)
         == PackageEntries("ztesting", "pinta", [Pinta2], all)
  {
    assert ZTestingEntries.Keys == {"pinta"};
    RepoEntriesOfOne("ztesting", ZTestingEntries, "pinta", all);
  }

  /** Both modes: the table is the union of what the four charts contribute. */
  lemma TestTableParts(all: bool)
    ensures TestTable(all)
         == PackageEntries("testing", "ni√±a", [Nina], all)
          + PackageEntries("testing", "pinta", [Pinta], all)
          + PackageEntries("testing", "santa-maria", [SantaMaria, SantaMariaRC], all)
          + PackageEntries("ztesting", "pinta", [Pinta2], all)
  {
    WithTwoRepos("testing", TestingEntries, "ztesting", ZTestingEntries, all);
    TestingLoaded(all);
    ZTestingLoaded(all);
  }

  lemma UnionOfSingletons<K, V>(k1: K, v1: V, k2: K, v2: V, k3: K, v3: V, k4: K, v4: V)
    ensures map[k1 := v1] + map[k2 := v2] + map[k3 := v3] + map[k4 := v4] == map[k1 := v1][k2 := v2][k3 := v3][k4 := v4]
  {
  }

  /** The default-mode table is DefaultTable. */
  lemma DefaultTableLoaded()
    ensures TestTable(false) == DefaultTable
  {
    TestTableParts(false);
    LatestSantaMaria();
    UnionOfSingletons(Key("testing", "ni√±a", None), Nina, Key("testing", "pinta", None), Pinta,
                      Key("testing", "santa-maria", None), SantaMaria, Key("ztesting", "pinta", None), Pinta2);
  }

  lemma VersionEntriesOne(repo: string, name: string, a: ChartVersion)
    ensures VersionEntries(repo, name, [a]) == map[Key(repo, name, Some(a.version)) := a]
  {
    assert [a][..0] == [];
  }

  lemma VersionEntriesTwo(repo: string, name: string, a: ChartVersion, b: ChartVersion)
    ensures VersionEntries(repo, name, [a, b]) == map[Key(repo, name, Some(a.version)) := a][Key(repo, name, Some(b.version)) := b]
  {
    assert [a, b][..1] == [a];
    VersionEntriesOne(repo, name, a);
  }

  lemma UnionWithPair<K, V>(k1: K, v1: V, k2: K, v2: V, k3: K, v3: V, k3b: K, v3b: V, k4: K, v4: V)
    ensures map[k1 := v1] + map[k2 := v2] + map[k3 := v3][k3b := v3b] + map[k4 := v4]
         == map[k1 := v1][k2 := v2][k3 := v3][k3b := v3b][k4 := v4]
  {
  }

  /** The include-all table is AllTable. */
  lemma AllTableLoaded()
    ensures TestTable(true) == AllTable
  {
    TestTableParts(true);
    VersionEntriesOne("testing", "ni√±a", Nina);
    VersionEntriesOne("testing", "pinta", Pinta);
    VersionEntriesTwo("testing", "santa-maria", SantaMaria, SantaMariaRC);
    VersionEntriesOne("ztesting", "pinta", Pinta2);
    UnionWithPair(Key("testing", "ni√±a", Some("0.1.0")), Nina, Key("testing", "pinta", Some("0.1.0")), Pinta,
                  Key("testing", "santa-maria", Some("1.2.3")), SantaMaria,
                  Key("testing", "santa-maria", Some("1.2.2-RC-1")), SantaMariaRC,
                  Key("ztesting", "pinta", Some("2.0.0")), Pinta2);
  }

  /** Fills a fresh index the way the tests do: `testing`, then `ztesting`. */
  method LoadTestIndex(all: bool) returns (i: Index)
    ensures fresh(i) && i.charts == if all then AllTable else DefaultTable
  {
    i := new Index();
    i.AddRepo("testing", TestingEntries, all);
    i.AddRepo("ztesting", ZTestingEntries, all);
    if all {
      AllTableLoaded();
    } else {
      DefaultTableLoaded();
    }
  }

  const KNina := Key("testing", "ni√±a", None)
  const KPinta := Key("testing", "pinta", None)
  const KSanta := Key("testing", "santa-maria", None)
  const KZPinta := Key("ztesting", "pinta", None)

  const KNinaV := Key("testing", "ni√±a", Some("0.1.0"))
  const KPintaV := Key("testing", "pinta", Some("0.1.0"))
  const KSantaV := Key("testing", "santa-maria", Some("1.2.3"))
  const KSantaRC := Key("testing", "santa-maria", Some("1.2.2-RC-1"))
  const KZPintaV := Key("ztesting", "pinta", Some("2.0.0"))

  function Pick<T>(b: bool, x: T): set<T> {
    if b then {x} else {}
  }

  /** The hits of a table of four entries: the entries that match. */
  lemma HitsOfFour(table: map<Key, ChartVersion>, rank: Ranker, k1: Key, k2: Key, k3: Key, k4: Key)
    requires table.Keys == {k1, k2, k3, k4}
    ensures Hits(table, rank)
         == Pick(rank(k1, table[k1]).Matched?, k1) + Pick(rank(k2, table[k2]).Matched?, k2)
          + Pick(rank(k3, table[k3]).Matched?, k3) + Pick(rank(k4, table[k4]).Matched?, k4)
  {
  }

  /** The hits of a table of five entries: the entries that match. */
  lemma HitsOfFive(table: map<Key, ChartVersion>, rank: Ranker, k1: Key, k2: Key, k3: Key, k4: Key, k5: Key)
    requires table.Keys == {k1, k2, k3, k4, k5}
    ensures Hits(table, rank)
         == Pick(rank(k1, table[k1]).Matched?, k1) + Pick(rank(k2, table[k2]).Matched?, k2)
          + Pick(rank(k3, table[k3]).Matched?, k3) + Pick(rank(k4, table[k4]).Matched?, k4)
          + Pick(rank(k5, table[k5]).Matched?, k5)
  {
  }

  lemma DefaultTableFacts()
    ensures DefaultTable.Keys == {KNina, KPinta, KSanta, KZPinta}
    ensures DefaultTable[KNina] == Nina && DefaultTable[KPinta] == Pinta
    ensures DefaultTable[KSanta] == SantaMaria && DefaultTable[KZPinta] == Pinta2
  {
  }

  lemma TableSizes()
    ensures |DefaultTable| == 4 && |AllTable| == 5
  {
    DefaultTableFacts();
    AllTableFacts();
  }

  lemma AllTableFacts()
    ensures AllTable.Keys == {KNinaV, KPintaV, KSantaV, KSantaRC, KZPintaV}
    ensures AllTable[KNinaV] == Nina && AllTable[KPintaV] == Pinta && AllTable[KSantaV] == SantaMaria
    ensures AllTable[KSantaRC] == SantaMariaRC && AllTable[KZPintaV] == Pinta2
  {
  }

  /** How each of the four default-mode entries ranks under `rank`. */
  function DefaultRanks(rank: Ranker): seq<Match> {
    [rank(KNina, Nina), rank(KPinta, Pinta), rank(KSanta, SantaMaria), rank(KZPinta, Pinta2)]
  }

  /** The default-mode hits: the entries whose rank is a match. */
  lemma DefaultHits(rank: Ranker)
    ensures Hits(DefaultTable, rank)
         == Pick(DefaultRanks(rank)[0].Matched?, KNina) + Pick(DefaultRanks(rank)[1].Matched?, KPinta)
          + Pick(DefaultRanks(rank)[2].Matched?, KSanta) + Pick(DefaultRanks(rank)[3].Matched?, KZPinta)
  {
    DefaultTableFacts();
    HitsOfFour(DefaultTable, rank, KNina, KPinta, KSanta, KZPinta);
  }

  /** How each of the five include-all entries ranks under `rank`. */
  function AllRanks(rank: Ranker): seq<Match> {
    [rank(KNinaV, Nina), rank(KPintaV, Pinta), rank(KSantaV, SantaMaria), rank(KSantaRC, SantaMariaRC), rank(KZPintaV, Pinta2)]
  }

  /** The include-all hits: the entries whose rank is a match. */
  lemma AllHits(rank: Ranker)
    ensures Hits(AllTable, rank)
         == Pick(AllRanks(rank)[0].Matched?, KNinaV) + Pick(AllRanks(rank)[1].Matched?, KPintaV)
          + Pick(AllRanks(rank)[2].Matched?, KSantaV) + Pick(AllRanks(rank)[3].Matched?, KSantaRC)
          + Pick(AllRanks(rank)[4].Matched?, KZPintaV)
  {
    AllTableFacts();
    HitsOfFive(AllTable, rank, KNinaV, KPintaV, KSantaV, KSantaRC, KZPintaV);
  }

  /** An entry's rank depends only on its repository, its chart name and its description. */
  lemma RankIgnoresVersion(k1: Key, cv1: ChartVersion, k2: Key, cv2: ChartVersion, m: Mode)
    requires k1.repo == k2.repo && k1.chart == k2.chart && cv1.description == cv2.description
    ensures Rank(k1, cv1, m) == Rank(k2, cv2, m)
  {
  }

  /**
   * Under any search mode an include-all entry ranks as the default-mode entry of its
   * chart: both santa-maria versions rank as the one default-mode santa-maria entry.
   */
  lemma AllRanksFollowDefault(m: Mode)
    ensures var d := DefaultRanks(RankerOf(m));
            AllRanks(RankerOf(m)) == [d[0], d[1], d[2], d[2], d[3]]
  {
    RankIgnoresVersion(KNinaV, Nina, KNina, Nina, m);
    RankIgnoresVersion(KPintaV, Pinta, KPinta, Pinta, m);
    RankIgnoresVersion(KSantaV, SantaMaria, KSanta, SantaMaria, m);
    RankIgnoresVersion(KSantaRC, SantaMariaRC, KSanta, SantaMaria, m);
    RankIgnoresVersion(KZPintaV, Pinta2, KZPinta, Pinta2, m);
  }

  /** The default-mode ranks of a search mode, entry by entry. */
  lemma ModeRanks(m: Mode)
    ensures DefaultRanks(RankerOf(m))
         == [Rank(KNina, Nina, m), Rank(KPinta, Pinta, m), Rank(KSanta, SantaMaria, m), Rank(KZPinta, Pinta2, m)]
  {
  }

  /** A query whose text holds no '/' and lower-cases to `t` is the bare term `t`. */
  lemma PlainQueryIs(q: string, t: string)
    requires '/' !in q && |t| == |q| && forall i :: 0 <= i < |q| ==> LowerChar(q[i]) == t[i]
    ensures ParseQuery(q) == Plain(t)
  {
    PlainQuery(q);
    LowerIs(q, t);
  }

  /** A bare term starting with a pair of adjacent characters found in neither field misses the entry. */
  lemma Miss(k: Key, cv: ChartVersion, t: string, a: char, b: char)
    requires 2 <= |t| && t[0] == a && t[1] == b
    requires LacksLowerPair(FullName(k), a, b) && LacksLowerPair(cv.description, a, b)
    ensures LiteralRank(k, cv, Plain(t)) == NoMatch
  {
    LowerLacksPair(FullName(k), t, 0);
    LowerLacksPair(cv.description, t, 0);
    PlainMatchIsSubstring(k, cv, t);
  }

  /** A bare term with a letter found, in either case, in neither field misses the entry. */
  lemma MissChar(k: Key, cv: ChartVersion, t: string, c: char)
    requires c in t && !IsUpper(c) && LacksLetter(FullName(k), c) && LacksLetter(cv.description, c)
    ensures LiteralRank(k, cv, Plain(t)) == NoMatch
  {
    LowerLacksChar(FullName(k), t, c);
    LowerLacksChar(cv.description, t, c);
    PlainMatchIsSubstring(k, cv, t);
  }

  /** A bare term that is the lower-cased chart name is an exact match. */
  lemma Exact(k: Key, cv: ChartVersion, t: string)
    requires |t| == |k.chart| && SpellsLower(k.chart, t, 0)
    ensures LiteralRank(k, cv, Plain(t)) == Matched(ExactScore)
  {
    LowerIs(k.chart, t);
  }

  /** A bare term spelled at position `i` of the fully qualified name, but not the chart name, is a name match. */
  lemma InName(k: Key, cv: ChartVersion, t: string, i: int)
    requires |t| != |k.chart|
    requires SpellsLower(FullName(k), t, i)
    ensures LiteralRank(k, cv, Plain(t)) == Matched(NameScore)
  {
    LowerContainsAt(FullName(k), t, i);
  }

  /** A bare term missing from the name but spelled at position `i` of the description is a description match. */
  lemma InDescription(k: Key, cv: ChartVersion, t: string, c: char, i: int)
    requires c in t && !IsUpper(c) && LacksLetter(FullName(k), c) && SpellsLower(cv.description, t, i)
    ensures LiteralRank(k, cv, Plain(t)) == Matched(DescriptionScore)
  {
    LowerLacksChar(FullName(k), t, c);
    LowerContainsAt(cv.description, t, i);
    if t == Lower(k.chart) {
      LowerConcat(k.repo + "/", k.chart);
      ContainsSuffix(Lower(k.repo + "/"), Lower(k.chart));
    }
  }

  /** A query `repo/term` scoped to another repository misses the entry. */
  lemma OtherRepo(k: Key, cv: ChartVersion, r: string, t: string)
    requires |k.repo| != |r|
    ensures LiteralRank(k, cv, Scoped(r, t)) == NoMatch
  {
  }

  /** A scoped query naming the entry's repository and chart is an exact match. */
  lemma ScopedExact(k: Key, cv: ChartVersion, r: string, t: string)
    requires |r| == |k.repo| && SpellsLower(k.repo, r, 0)
    requires |t| == |k.chart| && SpellsLower(k.chart, t, 0)
    ensures LiteralRank(k, cv, Scoped(r, t)) == Matched(ExactScore)
  {
    LowerIs(k.repo, r);
    LowerIs(k.chart, t);
  }

  /** A scoped query for the entry's repository whose term is in neither the chart name nor the description misses it. */
  lemma ScopedMiss(k: Key, cv: ChartVersion, r: string, t: string, c: char)
    requires |r| == |k.repo| && SpellsLower(k.repo, r, 0)
    requires c in t && !IsUpper(c) && LacksLetter(k.chart, c) && LacksLetter(cv.description, c)
    ensures LiteralRank(k, cv, Scoped(r, t)) == NoMatch
  {
    LowerIs(k.repo, r);
    LowerLacksChar(k.chart, t, c);
    LowerLacksChar(cv.description, t, c);
    ContainsItself(Lower(k.chart));
  }

  /** A query whose lower-cased text is `r/t` is scoped to `r`. */
  lemma ScopedQueryIs(q: string, r: string, t: string)
    requires '/' !in r && |q| == |r| + 1 + |t|
    requires forall i :: 0 <= i < |q| ==> LowerChar(q[i]) == (r + "/" + t)[i]
    ensures ParseQuery(q) == Scoped(r, t)
  {
    LowerIs(q, r + "/" + t);
    ScopedQuery(q, r, t);
  }

  /**
   * What the pattern "Th[ref]*" matches: searching for it anywhere in a string succeeds
   * exactly when "Th" occurs, since "[ref]*" also matches nothing.
   */
  function ThRef(s: string): bool {
    Contains(s, "Th")
  }

  /**
   * The regular-expression compiler of the tests: "th[" lacks its closing bracket, and
   * "Th[ref]*" compiles to ThRef. Any other pattern is taken as literal text.
   */
  function TestCompile(q: string): Compiled {
    if q == "th[" then SyntaxError("missing closing ]", "[")
    else if q == "Th[ref]*" then Compiled(ThRef)
    else Compiled(s => Contains(s, q))
  }

  lemma ThMiss(k: Key, cv: ChartVersion)
    requires forall i :: 0 <= i && i + 1 < |FullName(k)| ==> !(FullName(k)[i] == 'T' && FullName(k)[i + 1] == 'h')
    requires forall i :: 0 <= i && i + 1 < |cv.description| ==> !(cv.description[i] == 'T' && cv.description[i + 1] == 'h')
    ensures PatternRank(k, cv, ThRef) == NoMatch
  {
    LacksPair(FullName(k), "Th", 0);
    LacksPair(cv.description, "Th", 0);
  }

  lemma ThHit(k: Key, cv: ChartVersion)
    requires |cv.description| >= 2 && cv.description[0] == 'T' && cv.description[1] == 'h'
    ensures PatternRank(k, cv, ThRef) == Matched(PatternScore)
  {
    assert cv.description[0..2] == "Th";
    ContainsAt(cv.description, "Th", 0);
  }

  // The fully qualified names of the fixture charts, whatever their version.

  lemma NinaFullName(k: Key)
    requires k.repo == "testing" && k.chart == "ni√±a"
    ensures FullName(k) == "testing/ni√±a"
  {
  }

  lemma PintaFullName(k: Key)
    requires k.repo == "testing" && k.chart == "pinta"
    ensures FullName(k) == "testing/pinta"
  {
  }

  lemma SantaFullName(k: Key)
    requires k.repo == "testing" && k.chart == "santa-maria"
    ensures FullName(k) == "testing/santa-maria"
  {
  }

  lemma ZPintaFullName(k: Key)
    requires k.repo == "ztesting" && k.chart == "pinta"
    ensures FullName(k) == "ztesting/pinta"
  {
  }

  // What each field string of the fixture charts holds and lacks, proved on the string itself,
  // one adjacent pair per lemma.

  lemma NinaName(s: string)
    requires s == "testing/ni√±a"
    ensures LacksLetter(s, 'p') && LacksLetter(s, 'r') && LacksLetter(s, 'w')
  {
  }

  lemma NinaNameLacksSa(s: string)
    requires s == "testing/ni√±a"
    ensures LacksLowerPair(s, 's', 'a')
  {
  }

  lemma NinaChart(s: string)
    requires s == "ni√±a"
    ensures LacksLetter(s, 'r')
  {
  }

  lemma NinaDescription(s: string)
    requires s == "One boat"
    ensures LacksLetter(s, 'p') && LacksLetter(s, 'r') && LacksLetter(s, 'w')
  {
  }

  lemma NinaDescriptionLacksSa(s: string)
    requires s == "One boat"
    ensures LacksLowerPair(s, 's', 'a')
  {
  }

  lemma PintaName(s: string)
    requires s == "testing/pinta"
    ensures LacksLetter(s, 'r') && LacksLetter(s, 'w')
  {
  }

  lemma PintaNameLacksSa(s: string)
    requires s == "testing/pinta"
    ensures LacksLowerPair(s, 's', 'a')
  {
  }

  lemma PintaChart(s: string)
    requires s == "pinta"
    ensures LacksLetter(s, 'r') && SpellsLower(s, "pinta", 0)
  {
  }

  lemma PintaDescription(s: string)
    requires s == "Two ship"
    ensures LacksLetter(s, 'r') && SpellsLower(s, "two", 0)
  {
  }

  lemma PintaDescriptionLacksSa(s: string)
    requires s == "Two ship"
    ensures LacksLowerPair(s, 's', 'a')
  {
  }

  lemma SantaName(s: string)
    requires s == "testing/santa-maria"
    ensures LacksLetter(s, 'p') && LacksLetter(s, 'w') && LacksLetter(s, 'h') && SpellsLower(s, "santa", 8)
  {
  }

  lemma SantaChart(s: string)
    requires s == "santa-maria"
    ensures SpellsLower(s, "santa-maria", 0)
  {
  }

  lemma SantaDescription(s: string)
    requires s == "Three boat"
    ensures LacksLetter(s, 'p') && LacksLetter(s, 'w') && SpellsLower(s, "three", 0)
  {
  }

  lemma ZPintaName(s: string)
    requires s == "ztesting/pinta"
    ensures LacksLetter(s, 'm') && LacksLetter(s, 'w')
  {
  }

  lemma ZPintaNameLacksSa(s: string)
    requires s == "ztesting/pinta"
    ensures LacksLowerPair(s, 's', 'a')
  {
  }

  lemma ZPintaNameLacksTh(s: string)
    requires s == "ztesting/pinta"
    ensures LacksLowerPair(s, 't', 'h')
  {
  }

  lemma Pinta2Description(s: string)
    requires s == "Two ship, version two"
    ensures LacksLetter(s, 'm') && SpellsLower(s, "two", 0)
  {
  }

  lemma Pinta2DescriptionLacksSa(s: string)
    requires s == "Two ship, version two"
    ensures LacksLowerPair(s, 's', 'a')
  {
  }

  lemma Pinta2DescriptionLacksTh(s: string)
    requires s == "Two ship, version two"
    ensures LacksLowerPair(s, 't', 'h')
  {
  }

  lemma TestingRepo(s: string)
    requires s == "testing"
    ensures SpellsLower(s, "testing", 0)
  {
  }

  lemma ZTestingRepo(s: string)
    requires s == "ztesting"
    ensures SpellsLower(s, "ztesting", 0)
  {
  }

  lemma SantaMariaRankNina()
    ensures LiteralRank(KNina, Nina, Plain("santa-maria")) == NoMatch
  {
    NinaName(FullName(KNina));
    NinaDescription(Nina.description);
    MissChar(KNina, Nina, "santa-maria", 'r');
  }

  lemma SantaMariaRankPinta()
    ensures LiteralRank(KPinta, Pinta, Plain("santa-maria")) == NoMatch
  {
    PintaName(FullName(KPinta));
    PintaDescription(Pinta.description);
    MissChar(KPinta, Pinta, "santa-maria", 'r');
  }

  lemma SantaMariaRankSanta()
    ensures LiteralRank(KSanta, SantaMaria, Plain("santa-maria")) == Matched(ExactScore)
  {
    SantaChart(KSanta.chart);
    Exact(KSanta, SantaMaria, "santa-maria");
  }

  lemma SantaMariaRankZPinta()
    ensures LiteralRank(KZPinta, Pinta2, Plain("santa-maria")) == NoMatch
  {
    ZPintaName(FullName(KZPinta));
    Pinta2Description(Pinta2.description);
    MissChar(KZPinta, Pinta2, "santa-maria", 'm');
  }

  lemma SantaMariaRanks()
    ensures DefaultRanks(RankerOf(Literal(ParseQuery("santa-maria")))) == [NoMatch, NoMatch, Matched(ExactScore), NoMatch]
  {
    PlainQueryIs("santa-maria", "santa-maria");
    SantaMariaRankNina(); SantaMariaRankPinta(); SantaMariaRankSanta(); SantaMariaRankZPinta();
    ModeRanks(Literal(ParseQuery("santa-maria")));
  }

  lemma PintaRankNina()
    ensures LiteralRank(KNina, Nina, Plain("pinta")) == NoMatch
  {
    NinaName(FullName(KNina));
    NinaDescription(Nina.description);
    MissChar(KNina, Nina, "pinta", 'p');
  }

  lemma PintaRankPinta()
    ensures LiteralRank(KPinta, Pinta, Plain("pinta")) == Matched(ExactScore)
  {
    PintaChart(KPinta.chart);
    Exact(KPinta, Pinta, "pinta");
  }

  lemma PintaRankSanta()
    ensures LiteralRank(KSanta, SantaMaria, Plain("pinta")) == NoMatch
  {
    SantaName(FullName(KSanta));
    SantaDescription(SantaMaria.description);
    MissChar(KSanta, SantaMaria, "pinta", 'p');
  }

  lemma PintaRankZPinta()
    ensures LiteralRank(KZPinta, Pinta2, Plain("pinta")) == Matched(ExactScore)
  {
    PintaChart(KZPinta.chart);
    Exact(KZPinta, Pinta2, "pinta");
  }

  lemma PintaRanks()
    ensures DefaultRanks(RankerOf(Literal(ParseQuery("pinta")))) == [NoMatch, Matched(ExactScore), NoMatch, Matched(ExactScore)]
  {
    PlainQueryIs("pinta", "pinta");
    PintaRankNina(); PintaRankPinta(); PintaRankSanta(); PintaRankZPinta();
    ModeRanks(Literal(ParseQuery("pinta")));
  }

  lemma SantaRankNina()
    ensures LiteralRank(KNina, Nina, Plain("santa")) == NoMatch
  {
    NinaNameLacksSa(FullName(KNina));
    NinaDescriptionLacksSa(Nina.description);
    Miss(KNina, Nina, "santa", 's', 'a');
  }

  lemma SantaRankPinta()
    ensures LiteralRank(KPinta, Pinta, Plain("santa")) == NoMatch
  {
    PintaNameLacksSa(FullName(KPinta));
    PintaDescriptionLacksSa(Pinta.description);
    Miss(KPinta, Pinta, "santa", 's', 'a');
  }

  lemma SantaRankSanta()
    ensures LiteralRank(KSanta, SantaMaria, Plain("santa")) == Matched(NameScore)
  {
    SantaName(FullName(KSanta));
    InName(KSanta, SantaMaria, "santa", 8);
  }

  lemma SantaRankZPinta()
    ensures LiteralRank(KZPinta, Pinta2, Plain("santa")) == NoMatch
  {
    ZPintaNameLacksSa(FullName(KZPinta));
    Pinta2DescriptionLacksSa(Pinta2.description);
    Miss(KZPinta, Pinta2, "santa", 's', 'a');
  }

  lemma SantaRanks()
    ensures DefaultRanks(RankerOf(Literal(ParseQuery("santa")))) == [NoMatch, NoMatch, Matched(NameScore), NoMatch]
  {
    PlainQueryIs("santa", "santa");
    SantaRankNina(); SantaRankPinta(); SantaRankSanta(); SantaRankZPinta();
    ModeRanks(Literal(ParseQuery("santa")));
  }

  lemma ThreeRankNina()
    ensures LiteralRank(KNina, Nina, Plain("three")) == NoMatch
  {
    NinaName(FullName(KNina));
    NinaDescription(Nina.description);
    MissChar(KNina, Nina, "three", 'r');
  }

  lemma ThreeRankPinta()
    ensures LiteralRank(KPinta, Pinta, Plain("three")) == NoMatch
  {
    PintaName(FullName(KPinta));
    PintaDescription(Pinta.description);
    MissChar(KPinta, Pinta, "three", 'r');
  }

  lemma ThreeRankSanta()
    ensures LiteralRank(KSanta, SantaMaria, Plain("three")) == Matched(DescriptionScore)
  {
    SantaName(FullName(KSanta));
    SantaDescription(SantaMaria.description);
    InDescription(KSanta, SantaMaria, "three", 'h', 0);
  }

  lemma ThreeRankZPinta()
    ensures LiteralRank(KZPinta, Pinta2, Plain("three")) == NoMatch
  {
    ZPintaNameLacksTh(FullName(KZPinta));
    Pinta2DescriptionLacksTh(Pinta2.description);
    Miss(KZPinta, Pinta2, "three", 't', 'h');
  }

  lemma ThreeRanks()
    ensures DefaultRanks(RankerOf(Literal(ParseQuery("Three")))) == [NoMatch, NoMatch, Matched(DescriptionScore), NoMatch]
  {
    PlainQueryIs("Three", "three");
    ThreeRankNina(); ThreeRankPinta(); ThreeRankSanta(); ThreeRankZPinta();
    ModeRanks(Literal(ParseQuery("Three")));
  }

  lemma TwoRankNina()
    ensures LiteralRank(KNina, Nina, Plain("two")) == NoMatch
  {
    NinaName(FullName(KNina));
    NinaDescription(Nina.description);
    MissChar(KNina, Nina, "two", 'w');
  }

  lemma TwoRankPinta()
    ensures LiteralRank(KPinta, Pinta, Plain("two")) == Matched(DescriptionScore)
  {
    PintaName(FullName(KPinta));
    PintaDescription(Pinta.description);
    InDescription(KPinta, Pinta, "two", 'w', 0);
  }

  lemma TwoRankSanta()
    ensures LiteralRank(KSanta, SantaMaria, Plain("two")) == NoMatch
  {
    SantaName(FullName(KSanta));
    SantaDescription(SantaMaria.description);
    MissChar(KSanta, SantaMaria, "two", 'w');
  }

  lemma TwoRankZPinta()
    ensures LiteralRank(KZPinta, Pinta2, Plain("two")) == Matched(DescriptionScore)
  {
    ZPintaName(FullName(KZPinta));
    Pinta2Description(Pinta2.description);
    InDescription(KZPinta, Pinta2, "two", 'w', 0);
  }

  lemma TwoRanks()
    ensures DefaultRanks(RankerOf(Literal(ParseQuery("two")))) == [NoMatch, Matched(DescriptionScore), NoMatch, Matched(DescriptionScore)]
  {
    PlainQueryIs("two", "two");
    TwoRankNina(); TwoRankPinta(); TwoRankSanta(); TwoRankZPinta();
    ModeRanks(Literal(ParseQuery("two")));
  }

  /** "TWO" is the query "two" typed in capitals. */
  lemma UpperTwoRanks()
    ensures DefaultRanks(RankerOf(Literal(ParseQuery("TWO")))) == [NoMatch, Matched(DescriptionScore), NoMatch, Matched(DescriptionScore)]
  {
    PlainQueryIs("TWO", "two");
    TwoRankNina(); TwoRankPinta(); TwoRankSanta(); TwoRankZPinta();
    ModeRanks(Literal(ParseQuery("TWO")));
  }

  lemma MayflowerRankNina()
    ensures LiteralRank(KNina, Nina, Plain("mayflower")) == NoMatch
  {
    NinaName(FullName(KNina));
    NinaDescription(Nina.description);
    MissChar(KNina, Nina, "mayflower", 'w');
  }

  lemma MayflowerRankPinta()
    ensures LiteralRank(KPinta, Pinta, Plain("mayflower")) == NoMatch
  {
    PintaName(FullName(KPinta));
    PintaDescription(Pinta.description);
    MissChar(KPinta, Pinta, "mayflower", 'r');
  }

  lemma MayflowerRankSanta()
    ensures LiteralRank(KSanta, SantaMaria, Plain("mayflower")) == NoMatch
  {
    SantaName(FullName(KSanta));
    SantaDescription(SantaMaria.description);
    MissChar(KSanta, SantaMaria, "mayflower", 'w');
  }

  lemma MayflowerRankZPinta()
    ensures LiteralRank(KZPinta, Pinta2, Plain("mayflower")) == NoMatch
  {
    ZPintaName(FullName(KZPinta));
    Pinta2Description(Pinta2.description);
    MissChar(KZPinta, Pinta2, "mayflower", 'm');
  }

  lemma MayflowerRanks()
    ensures DefaultRanks(RankerOf(Literal(ParseQuery("mayflower")))) == [NoMatch, NoMatch, NoMatch, NoMatch]
  {
    PlainQueryIs("mayflower", "mayflower");
    MayflowerRankNina(); MayflowerRankPinta(); MayflowerRankSanta(); MayflowerRankZPinta();
    ModeRanks(Literal(ParseQuery("mayflower")));
  }

  lemma ZTestingPintaRankNina()
    ensures LiteralRank(KNina, Nina, Scoped("ztesting", "pinta")) == NoMatch
  {
    OtherRepo(KNina, Nina, "ztesting", "pinta");
  }

  lemma ZTestingPintaRankPinta()
    ensures LiteralRank(KPinta, Pinta, Scoped("ztesting", "pinta")) == NoMatch
  {
    OtherRepo(KPinta, Pinta, "ztesting", "pinta");
  }

  lemma ZTestingPintaRankSanta()
    ensures LiteralRank(KSanta, SantaMaria, Scoped("ztesting", "pinta")) == NoMatch
  {
    OtherRepo(KSanta, SantaMaria, "ztesting", "pinta");
  }

  lemma ZTestingPintaRankZPinta()
    ensures LiteralRank(KZPinta, Pinta2, Scoped("ztesting", "pinta")) == Matched(ExactScore)
  {
    ZTestingRepo(KZPinta.repo);
    PintaChart(KZPinta.chart);
    ScopedExact(KZPinta, Pinta2, "ztesting", "pinta");
  }

  lemma ZTestingPintaRanks()
    ensures DefaultRanks(RankerOf(Literal(ParseQuery("ztesting/pinta")))) == [NoMatch, NoMatch, NoMatch, Matched(ExactScore)]
  {
    ScopedQueryIs("ztesting/pinta", "ztesting", "pinta");
    ZTestingPintaRankNina(); ZTestingPintaRankPinta(); ZTestingPintaRankSanta(); ZTestingPintaRankZPinta();
    ModeRanks(Literal(ParseQuery("ztesting/pinta")));
  }

  lemma TestingSantaMariaRankNina()
    ensures LiteralRank(KNina, Nina, Scoped("testing", "santa-maria")) == NoMatch
  {
    TestingRepo(KNina.repo);
    NinaChart(KNina.chart);
    NinaDescription(Nina.description);
    ScopedMiss(KNina, Nina, "testing", "santa-maria", 'r');
  }

  lemma TestingSantaMariaRankPinta()
    ensures LiteralRank(KPinta, Pinta, Scoped("testing", "santa-maria")) == NoMatch
  {
    TestingRepo(KPinta.repo);
    PintaChart(KPinta.chart);
    PintaDescription(Pinta.description);
    ScopedMiss(KPinta, Pinta, "testing", "santa-maria", 'r');
  }

  lemma TestingSantaMariaRankSanta()
    ensures LiteralRank(KSanta, SantaMaria, Scoped("testing", "santa-maria")) == Matched(ExactScore)
  {
    TestingRepo(KSanta.repo);
    SantaChart(KSanta.chart);
    ScopedExact(KSanta, SantaMaria, "testing", "santa-maria");
  }

  lemma TestingSantaMariaRankZPinta()
    ensures LiteralRank(KZPinta, Pinta2, Scoped("testing", "santa-maria")) == NoMatch
  {
    OtherRepo(KZPinta, Pinta2, "testing", "santa-maria");
  }

  lemma TestingSantaMariaRanks()
    ensures DefaultRanks(RankerOf(Literal(ParseQuery("TESTING/SANTA-MARIA")))) == [NoMatch, NoMatch, Matched(ExactScore), NoMatch]
  {
    ScopedQueryIs("TESTING/SANTA-MARIA", "testing", "santa-maria");
    TestingSantaMariaRankNina(); TestingSantaMariaRankPinta(); TestingSantaMariaRankSanta(); TestingSantaMariaRankZPinta();
    ModeRanks(Literal(ParseQuery("TESTING/SANTA-MARIA")));
  }

  lemma ThRefRankNina()
    ensures PatternRank(KNina, Nina, ThRef) == NoMatch
  {
    ThMiss(KNina, Nina);
  }

  lemma ThRefRankPinta()
    ensures PatternRank(KPinta, Pinta, ThRef) == NoMatch
  {
    ThMiss(KPinta, Pinta);
  }

  lemma ThRefRankSanta()
    ensures PatternRank(KSanta, SantaMaria, ThRef) == Matched(PatternScore)
  {
    ThHit(KSanta, SantaMaria);
  }

  lemma ThRefRankZPinta()
    ensures PatternRank(KZPinta, Pinta2, ThRef) == NoMatch
  {
    ThMiss(KZPinta, Pinta2);
  }

  lemma ThRefRanks()
    ensures DefaultRanks(RankerOf(Pattern(ThRef))) == [NoMatch, NoMatch, Matched(PatternScore), NoMatch]
  {
    ThRefRankNina(); ThRefRankPinta(); ThRefRankSanta(); ThRefRankZPinta();
    ModeRanks(Pattern(ThRef));
  }
}
