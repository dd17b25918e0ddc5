/**
 * The search index of one session: an entry table filled by loading repositories and
 * then searched or listed any number of times.
 */
module Search {
  import opened Options
  import opened Text
  import opened Charts
  import opened Table
  import opened Matching

  /** What the regular-expression compiler gives for a pattern: a matcher, or a syntax error. */
  datatype Compiled = Compiled(matches: string -> bool) | SyntaxError(code: string, expr: string)

  /** The message of a pattern syntax error, as the regular-expression package words it. */
  function ErrorText(code: string, expr: string): (msg: string)
    ensures IsPrefix("error parsing regexp:", msg)
  {
    var rest := " " + code + ": `" + expr + "`";
    PrefixOfConcat("error parsing regexp:", rest);
    assert "error parsing regexp: " + code + ": `" + expr + "`" == "error parsing regexp:" + rest;
    "error parsing regexp: " + code + ": `" + expr + "`"
  }

  /** The outcome of a search: the results, or the error of an invalid pattern. */
  datatype Outcome = Ok(results: seq<Result>) | Err(message: string)

  /** `rs` lists the matching entries of the table, one result per entry, in some order. */
  ghost predicate Enumerates(rs: seq<Result>, table: map<Key, ChartVersion>, rank: Ranker) {
    |rs| == |Hits(table, rank)| && forall x :: x in rs <==> x in HitResults(table, rank)
  }

  /** `rs` lists the matching entries among the keys `dom`, one result per entry, in some order. */
  ghost predicate EnumeratesAmong(rs: seq<Result>, table: map<Key, ChartVersion>, rank: Ranker, dom: set<Key>) {
    |rs| == |HitsAmong(table, rank, dom)| && forall x :: x in rs <==> x in ResultsAmong(table, rank, dom)
  }

  /** Ranking one more key and appending its result when it matches keeps the listing complete. */
  lemma EnumeratesStep(rs: seq<Result>, table: map<Key, ChartVersion>, rank: Ranker, dom: set<Key>, k: Key)
    requires k in table && k !in dom && EnumeratesAmong(rs, table, rank, dom)
    ensures rank(k, table[k]).Matched? ==> EnumeratesAmong(rs + [Found(k, table[k], rank)], table, rank, dom + {k})
    ensures !rank(k, table[k]).Matched? ==> EnumeratesAmong(rs, table, rank, dom + {k})
  {
    HitsStep(table, rank, dom, k);
  }

  /** How listing reports a stored entry. */
  function Listing(k: Key, cv: ChartVersion): Result {
    Result(FullName(k), 0, Some(cv))
  }

  function ListedAmong(table: map<Key, ChartVersion>, dom: set<Key>): set<Result> {
    set k | k in dom && k in table :: Listing(k, table[k])
  }

  lemma MapUnionAssoc(a: map<Key, ChartVersion>, b: map<Key, ChartVersion>, c: map<Key, ChartVersion>)
    ensures (a + b) + c == a + (b + c)
  {
  }

  lemma MapUnionUpdate(a: map<Key, ChartVersion>, b: map<Key, ChartVersion>, k: Key, v: ChartVersion)
    ensures (a + b)[k := v] == a + b[k := v]
  {
  }

  lemma VersionEntriesExtend(repo: string, name: string, vs: seq<ChartVersion>, j: nat)
    requires j < |vs|
    ensures VersionEntries(repo, name, vs[..j + 1])
         == VersionEntries(repo, name, vs[..j])[Key(repo, name, Some(vs[j].version)) := vs[j]]
  {
    assert vs[..j + 1][..j] == vs[..j];
  }

  /**
   * Stores the entries of one chart of a repository's index file: its highest version or,
   * with `all`, each version in turn. A chart without versions stores nothing.
   */
  method AddChart(table: map<Key, ChartVersion>, repo: string, name: string, versions: seq<ChartVersion>, all: bool)
    returns (t: map<Key, ChartVersion>)
    ensures t == table + PackageEntries(repo, name, versions, all)
  {
    t := table;
    if versions != [] {
      if all {
        var j := 0;
        while j < |versions|
          invariant 0 <= j <= |versions|
          invariant t == table + VersionEntries(repo, name, versions[..j])
        {
          VersionEntriesExtend(repo, name, versions, j);
          MapUnionUpdate(table, VersionEntries(repo, name, versions[..j]),
                         Key(repo, name, Some(versions[j].version)), versions[j]);
          t := t[Key(repo, name, Some(versions[j].version)) := versions[j]];
          j := j + 1;
        }
        assert versions[..j] == versions;
      } else {
        t := t[Key(repo, name, None) := Latest(versions)];
      }
    }
  }

  class Index {
    /** The entry table. */
    var charts: map<Key, ChartVersion>

    /** An empty index. */
    constructor ()
      ensures charts == map[]
    {
      charts := map[];
    }

    /**
     * Loads a repository's index file under the name `repo`, replacing what an earlier
     * load of `repo` contributed: one entry per chart holding its highest version or, with
     * `all`, one entry per version. Charts without versions are skipped.
     */
    method AddRepo(repo: string, entries: Entries, all: bool)
      modifies this
      ensures charts == WithRepo(old(charts), repo, entries, all)
    {
      var table := map k | k in charts && k.repo != repo :: charts[k];
      var todo := entries.Keys;
      RepoEntriesNone(repo, entries, all);
      assert entries.Keys - todo == {};
      while todo != {}
        invariant todo <= entries.Keys
        invariant table == Drop(old(charts), repo) + RepoEntries(repo, entries, entries.Keys - todo, all)
        decreases |todo|
      {
        var name :| name in todo;
        ghost var done := entries.Keys - todo;
        ghost var before := table;
        table := AddChart(table, repo, name, entries[name], all);
        MapUnionAssoc(Drop(old(charts), repo), RepoEntries(repo, entries, done, all),
                      PackageEntries(repo, name, entries[name], all));
        RepoEntriesStep(repo, entries, done, name, all);
        todo := todo - {name};
        assert entries.Keys - todo == done + {name};
      }
      assert entries.Keys - todo == entries.Keys;
      charts := table;
    }

    /** Every stored entry, one result each, in no particular order. */
    method All() returns (rs: seq<Result>)
      ensures |rs| == |charts|
      ensures forall x :: x in rs <==> x in ListedAmong(charts, charts.Keys)
    {
      var todo := charts.Keys;
      rs := [];
      while todo != {}
        invariant todo <= charts.Keys
        invariant |rs| == |charts.Keys - todo|
        invariant forall x :: x in rs <==> x in ListedAmong(charts, charts.Keys - todo)
        decreases |todo|
      {
        var k :| k in todo;
        ghost var done := charts.Keys - todo;
        assert ListedAmong(charts, done + {k}) == ListedAmong(charts, done) + {Listing(k, charts[k])};
        rs := rs + [Listing(k, charts[k])];
        todo := todo - {k};
        assert charts.Keys - todo == done + {k};
      }
      assert charts.Keys - todo == charts.Keys;
    }

    /** The results of ranking every stored entry by `rank`, keeping the entries that match. */
    method Collect(rank: Ranker) returns (rs: seq<Result>)
      ensures Enumerates(rs, charts, rank)
    {
      var table := charts;
      var todo := table.Keys;
      rs := [];
      assert table.Keys - todo == {};
      while todo != {}
        invariant todo <= table.Keys
        invariant EnumeratesAmong(rs, table, rank, table.Keys - todo)
        decreases |todo|
      {
        var k :| k in todo;
        ghost var done := table.Keys - todo;
        EnumeratesStep(rs, table, rank, done, k);
        if rank(k, table[k]).Matched? {
          rs := rs + [Found(k, table[k], rank)];
        }
        todo := todo - {k};
        assert table.Keys - todo == done + {k};
      }
      assert table.Keys - todo == table.Keys;
    }

    /**
     * Searches the table. A literal query matches case-insensitively (scoped by a leading
     * `repository/`); with `regexp` the query is compiled first, and a pattern that does
     * not compile yields its error and no results.
     */
    method Search(query: string, regexp: bool, compile: string -> Compiled) returns (r: Outcome)
      ensures !regexp ==> r.Ok? && Enumerates(r.results, charts, RankerOf(Literal(ParseQuery(query))))
      ensures regexp && compile(query).Compiled? ==>
                r.Ok? && Enumerates(r.results, charts, RankerOf(Pattern(compile(query).matches)))
      ensures regexp && compile(query).SyntaxError? ==>
                r == Err(ErrorText(compile(query).code, compile(query).expr))
      ensures r.Err? ==> IsPrefix("error parsing regexp:", r.message)
    {
      if regexp {
        match compile(query)
        case SyntaxError(code, expr) =>
          return Err(ErrorText(code, expr));
        case Compiled(p) =>
          var rs := Collect(RankerOf(Pattern(p)));
          return Ok(rs);
      }
      var rs := Collect(RankerOf(Literal(ParseQuery(query))));
      return Ok(rs);
    }
  }
}
