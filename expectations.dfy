/**
 * The expectations of the search tests, stated against the model: entry counts, the
 * sorted results of each search, the order SortScore produces, and the error of a
 * pattern that does not compile.
 */
module Expectations {
  import opened Options
  import opened Text
  import opened SemVer
  import opened Charts
  import opened Matching
  import opened Search
  import opened Ranking
  import opened Fixtures

  /** Reordering a result list keeps it a listing of the same hits. */
  lemma EnumeratesPermuted(rs: seq<Result>, ss: seq<Result>, table: map<Key, ChartVersion>, rank: Ranker)
    requires Enumerates(rs, table, rank) && multiset(ss) == multiset(rs)
    ensures Enumerates(ss, table, rank)
  {
    assert |ss| == |multiset(ss)| == |multiset(rs)| == |rs|;
    forall x ensures x in ss <==> x in rs {
      assert x in ss <==> x in multiset(ss);
      assert x in rs <==> x in multiset(rs);
    }
  }

  /** A listing of no hits is empty. */
  lemma EnumeratesNone(rs: seq<Result>, table: map<Key, ChartVersion>, rank: Ranker)
    requires Enumerates(rs, table, rank) && |Hits(table, rank)| == 0
    ensures rs == []
  {
  }

  /** A listing of one hit is its result. */
  lemma EnumeratesOne(rs: seq<Result>, table: map<Key, ChartVersion>, rank: Ranker, x: Result)
    requires Enumerates(rs, table, rank) && |Hits(table, rank)| == 1 && HitResults(table, rank) == {x}
    ensures rs == [x]
  {
    assert rs[0] in rs;
  }

  /** A sorted listing of two hits, the first ranked before the second, is the two in that order. */
  lemma EnumeratesTwo(rs: seq<Result>, table: map<Key, ChartVersion>, rank: Ranker, x: Result, y: Result)
    requires Enumerates(rs, table, rank) && |Hits(table, rank)| == 2 && HitResults(table, rank) == {x, y}
    requires Sorted(rs) && ScoreLess(x, y)
    ensures rs == [x, y]
  {
    ScoreLessIrreflexive(x);
    assert x in rs && y in rs;
    assert rs[0] in rs && rs[1] in rs && !ScoreLess(rs[1], rs[0]);
  }

  /** One hit gives one result. */
  lemma OneHitResult(table: map<Key, ChartVersion>, rank: Ranker, k: Key)
    requires Hits(table, rank) == {k}
    ensures k in table && rank(k, table[k]).Matched?
    ensures HitResults(table, rank) == {Found(k, table[k], rank)}
  {
    assert k in Hits(table, rank);
  }

  /** Two hits give a result each. */
  lemma TwoHitResults(table: map<Key, ChartVersion>, rank: Ranker, k1: Key, k2: Key)
    requires Hits(table, rank) == {k1, k2}
    ensures k1 in table && rank(k1, table[k1]).Matched? && k2 in table && rank(k2, table[k2]).Matched?
    ensures HitResults(table, rank) == {Found(k1, table[k1], rank), Found(k2, table[k2], rank)}
  {
    assert k1 in Hits(table, rank) && k2 in Hits(table, rank);
  }

  /** In the default mode, a search matching only santa-maria finds testing/santa-maria. */
  lemma DefaultOnlySanta(rank: Ranker, s: int)
    requires DefaultRanks(rank) == [NoMatch, NoMatch, Matched(s), NoMatch]
    ensures |Hits(DefaultTable, rank)| == 1
    ensures HitResults(DefaultTable, rank) == {Result("testing/santa-maria", s, Some(SantaMaria))}
  {
    DefaultHits(rank);
    DefaultTableFacts();
    assert Hits(DefaultTable, rank) == {KSanta};
    SantaFullName(KSanta);
    OneHitResult(DefaultTable, rank, KSanta);
  }

  /** In the default mode, a search matching only the two pinta charts finds both, one per repository. */
  lemma DefaultBothPintas(rank: Ranker, s: int)
    requires DefaultRanks(rank) == [NoMatch, Matched(s), NoMatch, Matched(s)]
    ensures |Hits(DefaultTable, rank)| == 2
    ensures HitResults(DefaultTable, rank)
         == {Result("testing/pinta", s, Some(Pinta)), Result("ztesting/pinta", s, Some(Pinta2))}
  {
    DefaultHits(rank);
    DefaultTableFacts();
    assert Hits(DefaultTable, rank) == {KPinta, KZPinta};
    PintaFullName(KPinta); ZPintaFullName(KZPinta);
    TwoHitResults(DefaultTable, rank, KPinta, KZPinta);
  }

  /** In the default mode, a search matching only the ztesting pinta finds ztesting/pinta. */
  lemma DefaultOnlyZPinta(rank: Ranker, s: int)
    requires DefaultRanks(rank) == [NoMatch, NoMatch, NoMatch, Matched(s)]
    ensures |Hits(DefaultTable, rank)| == 1
    ensures HitResults(DefaultTable, rank) == {Result("ztesting/pinta", s, Some(Pinta2))}
  {
    DefaultHits(rank);
    DefaultTableFacts();
    assert Hits(DefaultTable, rank) == {KZPinta};
    ZPintaFullName(KZPinta);
    OneHitResult(DefaultTable, rank, KZPinta);
  }

  lemma DefaultNone(rank: Ranker)
    requires DefaultRanks(rank) == [NoMatch, NoMatch, NoMatch, NoMatch]
    ensures |Hits(DefaultTable, rank)| == 0
  {
    DefaultHits(rank);
  }

  /** In include-all mode, a search matching santa-maria finds both its versions. */
  lemma AllBothSantas(rank: Ranker, s: int)
    requires AllRanks(rank) == [NoMatch, NoMatch, Matched(s), Matched(s), NoMatch]
    ensures |Hits(AllTable, rank)| == 2
    ensures HitResults(AllTable, rank)
         == {Result("testing/santa-maria", s, Some(SantaMaria)), Result("testing/santa-maria", s, Some(SantaMariaRC))}
  {
    AllHits(rank);
    AllTableFacts();
    assert Hits(AllTable, rank) == {KSantaV, KSantaRC};
    SantaFullName(KSantaV); SantaFullName(KSantaRC);
    TwoHitResults(AllTable, rank, KSantaV, KSantaRC);
  }

  /** In include-all mode, a search matching pinta finds one entry per repository. */
  lemma AllBothPintas(rank: Ranker, s: int)
    requires AllRanks(rank) == [NoMatch, Matched(s), NoMatch, NoMatch, Matched(s)]
    ensures |Hits(AllTable, rank)| == 2
  {
    AllHits(rank);
    assert Hits(AllTable, rank) == {KPintaV, KZPintaV};
  }

  lemma AllNone(rank: Ranker)
    requires AllRanks(rank) == [NoMatch, NoMatch, NoMatch, NoMatch, NoMatch]
    ensures |Hits(AllTable, rank)| == 0
  {
    AllHits(rank);
  }

  /** Searches, then orders the results with SortScore, the order the tests compare against. */
  method SearchSorted(i: Index, query: string, regexp: bool, compile: string -> Compiled) returns (r: Outcome)
    ensures r.Ok? ==> Sorted(r.results)
    ensures !regexp ==> r.Ok? && Enumerates(r.results, i.charts, RankerOf(Literal(ParseQuery(query))))
    ensures regexp && compile(query).Compiled? ==>
              r.Ok? && Enumerates(r.results, i.charts, RankerOf(Pattern(compile(query).matches)))
    ensures regexp && compile(query).SyntaxError? ==>
              r == Err(ErrorText(compile(query).code, compile(query).expr))
  {
    r := i.Search(query, regexp, compile);
    if r.Ok? {
      var rs := SortedList(r.results);
      if !regexp {
        EnumeratesPermuted(r.results, rs, i.charts, RankerOf(Literal(ParseQuery(query))));
      } else if compile(query).Compiled? {
        EnumeratesPermuted(r.results, rs, i.charts, RankerOf(Pattern(compile(query).matches)));
      }
      r := Ok(rs);
    }
  }

  /** The names of a result list, in order. */
  function Names(rs: seq<Result>): seq<string> {
    seq(|rs|, j requires 0 <= j < |rs| => rs[j].name)
  }

  /** TestRepoEntries: four entries in the default mode, five in include-all mode. */
  method TestRepoEntries() returns (defaults: int, everything: int)
    ensures defaults == 4 && everything == 5
  {
    TableSizes();
    var i := LoadTestIndex(false);
    var rs := i.All();
    defaults := |rs|;
    i := LoadTestIndex(true);
    rs := i.All();
    everything := |rs|;
  }

  /** The seven results TestSortScore sorts, in the order it gives them. */
  function SortScoreInput(): seq<Result> {
    [Result("bbb", 0, Some(ChartVersion("", "1.2.3", "", []))),
     Result("aaa", 5, None),
     Result("abb", 5, None),
     Result("aab", 0, None),
     Result("bab", 5, None),
     Result("ver", 5, Some(ChartVersion("", "1.2.4", "", []))),
     Result("ver", 5, Some(ChartVersion("", "1.2.3", "", [])))]
  }

  /** The same results in SortScore order. */
  function SortScoreOutput(): seq<Result> {
    var s := SortScoreInput();
    [s[3], s[0], s[1], s[2], s[4], s[5], s[6]]
  }

  lemma ScoreFirst(x: Result, y: Result)
    requires x.score < y.score
    ensures ScoreLess(x, y)
  {
  }

  lemma NameNext(x: Result, y: Result)
    requires x.score == y.score && StrLess(x.name, y.name)
    ensures ScoreLess(x, y)
  {
  }

  lemma VersionNext(x: Result, y: Result)
    requires x.score == y.score && x.name == y.name && VersionLess(VersionOf(y), VersionOf(x))
    ensures ScoreLess(x, y)
  {
  }

  /** Each result of SortScoreOutput goes before the next. */
  lemma SortScoreOutputChain()
    ensures forall i :: 0 < i < |SortScoreOutput()| ==> ScoreLess(SortScoreOutput()[i - 1], SortScoreOutput()[i])
  {
    var s := SortScoreOutput();
    forall i | 0 < i < |s| ensures ScoreLess(s[i - 1], s[i]) {
      if i == 1 {
        assert StrLess("aab", "bbb");
        NameNext(s[0], s[1]);
      } else if i == 2 {
        ScoreFirst(s[1], s[2]);
      } else if i == 3 {
        assert StrLess("aaa", "abb");
        NameNext(s[2], s[3]);
      } else if i == 4 {
        assert StrLess("abb", "bab");
        NameNext(s[3], s[4]);
      } else if i == 5 {
        assert StrLess("bab", "ver");
        NameNext(s[4], s[5]);
      } else {
        PatchOrder();
        VersionNext(s[5], s[6]);
      }
    }
  }

  /** Moving one element to the front only reorders the sequence. */
  lemma MoveToFront<T>(s: seq<T>, i: int)
    requires 0 <= i < |s|
    ensures multiset([s[i]] + s[..i] + s[i + 1..]) == multiset(s)
  {
    assert s == s[..i] + [s[i]] + s[i + 1..];
  }

  /** Moving the fourth of seven elements to the front only reorders them. */
  lemma FourthFirst<T>(s: seq<T>)
    requires |s| == 7
    ensures multiset([s[3], s[0], s[1], s[2], s[4], s[5], s[6]]) == multiset(s)
  {
    MoveToFront(s, 3);
    assert [s[3], s[0], s[1], s[2], s[4], s[5], s[6]] == [s[3]] + s[..3] + s[4..];
  }

  /** SortScoreOutput holds the results SortScoreInput holds. */
  lemma SortScorePermutation()
    ensures multiset(SortScoreOutput()) == multiset(SortScoreInput())
  {
    FourthFirst(SortScoreInput());
  }

  /** Whatever the algorithm, the only sorted arrangement of the seven results is SortScoreOutput. */
  lemma SortScoreOnlyOrder(out: seq<Result>)
    requires Sorted(out) && multiset(out) == multiset(SortScoreInput())
    ensures out == SortScoreOutput()
  {
    SortScorePermutation();
    ScoreLessIsStrictWeakOrder();
    SortScoreOutputChain();
    ChainSorted(SortScoreOutput(), ScoreLess);
    SortedUnique(SortScoreOutput(), out, ScoreLess);
  }

  /** The scores of a result list, in order. */
  function Scores(rs: seq<Result>): seq<int> {
    seq(|rs|, j requires 0 <= j < |rs| => rs[j].score)
  }

  lemma SortScoreOutputReads()
    ensures |SortScoreOutput()| == 7
    ensures Names(SortScoreOutput()) == ["aab", "bbb", "aaa", "abb", "bab", "ver", "ver"]
    ensures Scores(SortScoreOutput()) == [0, 0, 5, 5, 5, 5, 5]
    ensures VersionOf(SortScoreOutput()[5]) == "1.2.4" && VersionOf(SortScoreOutput()[6]) == "1.2.3"
  {
  }

  /** SortScore on a list of results: the list it leaves in place of `rs`. */
  method SortedList(rs: seq<Result>) returns (out: seq<Result>)
    ensures Sorted(out) && multiset(out) == multiset(rs)
  {
    var a := new Result[|rs|](j requires 0 <= j < |rs| => rs[j]);
    assert a[..] == rs;
    SortScore(a);
    out := a[..];
  }

  /** TestSortScore: names, scores and the versions of the two "ver" results after sorting. */
  method TestSortScore() returns (names: seq<string>, scores: seq<int>, fifth: string, sixth: string)
    ensures names == ["aab", "bbb", "aaa", "abb", "bab", "ver", "ver"]
    ensures scores == [0, 0, 5, 5, 5, 5, 5]
    ensures fifth == "1.2.4" && sixth == "1.2.3"
  {
    var out := SortedList(SortScoreInput());
    SortScoreOnlyOrder(out);
    SortScoreOutputReads();
    names := Names(out);
    scores := Scores(out);
    fifth := VersionOf(out[5]);
    sixth := VersionOf(out[6]);
  }

  /** The two pinta results of a search come out testing first, whatever their common score. */
  lemma PintasInOrder(s: int)
    ensures ScoreLess(Result("testing/pinta", s, Some(Pinta)), Result("ztesting/pinta", s, Some(Pinta2)))
  {
    assert StrLess("testing/pinta", "ztesting/pinta");
    NameNext(Result("testing/pinta", s, Some(Pinta)), Result("ztesting/pinta", s, Some(Pinta2)));
  }

  /** A default-mode listing of a search that matches only santa-maria names testing/santa-maria. */
  lemma ListsOnlySanta(rs: seq<Result>, rank: Ranker, s: int)
    requires Enumerates(rs, DefaultTable, rank)
    requires DefaultRanks(rank) == [NoMatch, NoMatch, Matched(s), NoMatch]
    ensures Names(rs) == ["testing/santa-maria"]
  {
    DefaultOnlySanta(rank, s);
    EnumeratesOne(rs, DefaultTable, rank, Result("testing/santa-maria", s, Some(SantaMaria)));
  }

  /** A sorted default-mode listing of a search that matches only the pinta charts names both, testing first. */
  lemma ListsBothPintas(rs: seq<Result>, rank: Ranker, s: int)
    requires Enumerates(rs, DefaultTable, rank) && Sorted(rs)
    requires DefaultRanks(rank) == [NoMatch, Matched(s), NoMatch, Matched(s)]
    ensures Names(rs) == ["testing/pinta", "ztesting/pinta"]
  {
    DefaultBothPintas(rank, s);
    PintasInOrder(s);
    EnumeratesTwo(rs, DefaultTable, rank, Result("testing/pinta", s, Some(Pinta)), Result("ztesting/pinta", s, Some(Pinta2)));
  }

  /** A default-mode listing of a search that matches only the ztesting pinta names ztesting/pinta. */
  lemma ListsOnlyZPinta(rs: seq<Result>, rank: Ranker, s: int)
    requires Enumerates(rs, DefaultTable, rank)
    requires DefaultRanks(rank) == [NoMatch, NoMatch, NoMatch, Matched(s)]
    ensures Names(rs) == ["ztesting/pinta"]
  {
    DefaultOnlyZPinta(rank, s);
    EnumeratesOne(rs, DefaultTable, rank, Result("ztesting/pinta", s, Some(Pinta2)));
  }

  /** A default-mode listing of a search that matches nothing is empty. */
  lemma ListsNone(rs: seq<Result>, rank: Ranker)
    requires Enumerates(rs, DefaultTable, rank)
    requires DefaultRanks(rank) == [NoMatch, NoMatch, NoMatch, NoMatch]
    ensures Names(rs) == []
  {
    DefaultNone(rank);
    EnumeratesNone(rs, DefaultTable, rank);
  }

  /** TestSearchByName, "basic search for one result". */
  method SearchOneResult() returns (names: seq<string>)
    ensures names == ["testing/santa-maria"]
  {
    var i := LoadTestIndex(false);
    var r := SearchSorted(i, "santa-maria", false, TestCompile);
    SantaMariaRanks();
    ListsOnlySanta(r.results, RankerOf(Literal(ParseQuery("santa-maria"))), ExactScore);
    names := Names(r.results);
  }

  /** TestSearchByName, "basic search for two results" (and "search mixedCase", the same query). */
  method SearchTwoResults() returns (names: seq<string>)
    ensures names == ["testing/pinta", "ztesting/pinta"]
  {
    var i := LoadTestIndex(false);
    var r := SearchSorted(i, "pinta", false, TestCompile);
    PintaRanks();
    ListsBothPintas(r.results, RankerOf(Literal(ParseQuery("pinta"))), ExactScore);
    names := Names(r.results);
  }

  /** TestSearchByName, "repo-specific search for one result": only the ztesting entry. */
  method SearchRepoScoped() returns (names: seq<string>)
    ensures names == ["ztesting/pinta"]
  {
    var i := LoadTestIndex(false);
    var r := SearchSorted(i, "ztesting/pinta", false, TestCompile);
    ZTestingPintaRanks();
    ListsOnlyZPinta(r.results, RankerOf(Literal(ParseQuery("ztesting/pinta"))), ExactScore);
    names := Names(r.results);
  }

  /** TestSearchByName, "partial name search". */
  method SearchPartialName() returns (names: seq<string>)
    ensures names == ["testing/santa-maria"]
  {
    var i := LoadTestIndex(false);
    var r := SearchSorted(i, "santa", false, TestCompile);
    SantaRanks();
    ListsOnlySanta(r.results, RankerOf(Literal(ParseQuery("santa"))), NameScore);
    names := Names(r.results);
  }

  /** TestSearchByName, "description search, one result". */
  method SearchDescriptionOne() returns (names: seq<string>)
    ensures names == ["testing/santa-maria"]
  {
    var i := LoadTestIndex(false);
    var r := SearchSorted(i, "Three", false, TestCompile);
    ThreeRanks();
    ListsOnlySanta(r.results, RankerOf(Literal(ParseQuery("Three"))), DescriptionScore);
    names := Names(r.results);
  }

  /** TestSearchByName, "description search, two results". */
  method SearchDescriptionTwo() returns (names: seq<string>)
    ensures names == ["testing/pinta", "ztesting/pinta"]
  {
    var i := LoadTestIndex(false);
    var r := SearchSorted(i, "two", false, TestCompile);
    TwoRanks();
    ListsBothPintas(r.results, RankerOf(Literal(ParseQuery("two"))), DescriptionScore);
    names := Names(r.results);
  }

  /** TestSearchByName, "description upper search, two results": the case of the query does not matter. */
  method SearchDescriptionUpper() returns (names: seq<string>)
    ensures names == ["testing/pinta", "ztesting/pinta"]
  {
    var i := LoadTestIndex(false);
    var r := SearchSorted(i, "TWO", false, TestCompile);
    UpperTwoRanks();
    ListsBothPintas(r.results, RankerOf(Literal(ParseQuery("TWO"))), DescriptionScore);
    names := Names(r.results);
  }

  /** TestSearchByName, "nothing found". */
  method SearchNothingFound() returns (names: seq<string>)
    ensures names == []
  {
    var i := LoadTestIndex(false);
    var r := SearchSorted(i, "mayflower", false, TestCompile);
    MayflowerRanks();
    ListsNone(r.results, RankerOf(Literal(ParseQuery("mayflower"))));
    names := Names(r.results);
  }

  /** TestSearchByName, "regexp, one result". */
  method SearchRegexpOne() returns (names: seq<string>)
    ensures names == ["testing/santa-maria"]
  {
    var i := LoadTestIndex(false);
    var r := SearchSorted(i, "Th[ref]*", true, TestCompile);
    assert TestCompile("Th[ref]*") == Compiled(ThRef);
    ThRefRanks();
    ListsOnlySanta(r.results, RankerOf(Pattern(ThRef)), PatternScore);
    names := Names(r.results);
  }

  /** TestSearchByName, "regexp, fail compile": an error that mentions the regexp parser, and no results. */
  method SearchRegexpFailCompile() returns (failed: bool, message: string)
    ensures failed && Contains(message, "error parsing regexp:")
  {
    var i := LoadTestIndex(false);
    var r := i.Search("th[", true, TestCompile);
    assert TestCompile("th[").SyntaxError?;
    failed := r.Err?;
    message := if r.Err? then r.message else "";
  }

  /** In include-all mode, a search ranking santa-maria as in the default mode finds both its versions. */
  lemma AllSantasFromDefault(m: Mode, s: int)
    requires DefaultRanks(RankerOf(m)) == [NoMatch, NoMatch, Matched(s), NoMatch]
    ensures |Hits(AllTable, RankerOf(m))| == 2
    ensures HitResults(AllTable, RankerOf(m))
         == {Result("testing/santa-maria", s, Some(SantaMaria)), Result("testing/santa-maria", s, Some(SantaMariaRC))}
  {
    AllRanksFollowDefault(m);
    AllBothSantas(RankerOf(m), s);
  }

  /** In include-all mode, a search matching the two pinta charts finds one entry per repository. */
  lemma AllPintasFromDefault(m: Mode, s: int)
    requires DefaultRanks(RankerOf(m)) == [NoMatch, Matched(s), NoMatch, Matched(s)]
    ensures |Hits(AllTable, RankerOf(m))| == 2
  {
    AllRanksFollowDefault(m);
    AllBothPintas(RankerOf(m), s);
  }

  /** In include-all mode, a search matching nothing in the default mode finds nothing. */
  lemma AllNoneFromDefault(m: Mode)
    requires DefaultRanks(RankerOf(m)) == [NoMatch, NoMatch, NoMatch, NoMatch]
    ensures |Hits(AllTable, RankerOf(m))| == 0
  {
    AllRanksFollowDefault(m);
    AllNone(RankerOf(m));
  }

  /** A sorted include-all listing of the two santa-maria versions puts the release first. */
  lemma ListsReleaseFirst(rs: seq<Result>, rank: Ranker, s: int)
    requires Enumerates(rs, AllTable, rank) && Sorted(rs)
    requires |Hits(AllTable, rank)| == 2
    requires HitResults(AllTable, rank)
          == {Result("testing/santa-maria", s, Some(SantaMaria)), Result("testing/santa-maria", s, Some(SantaMariaRC))}
    ensures |rs| == 2 && VersionOf(rs[0]) == "1.2.3" && VersionOf(rs[1]) == "1.2.2-RC-1"
  {
    var release := Result("testing/santa-maria", s, Some(SantaMaria));
    var candidate := Result("testing/santa-maria", s, Some(SantaMariaRC));
    ReleaseAbovePreRelease();
    VersionNext(release, candidate);
    EnumeratesTwo(rs, AllTable, rank, release, candidate);
  }

  /** TestSortRepoEntries: after sorting, the first santa-maria result of the include-all index is 1.2.3. */
  method TestSortRepoEntries() returns (version: string)
    ensures version == "1.2.3"
  {
    var i := LoadTestIndex(true);
    var r := SearchSorted(i, "TESTING/SANTA-MARIA", false, TestCompile);
    TestingSantaMariaRanks();
    AllSantasFromDefault(Literal(ParseQuery("TESTING/SANTA-MARIA")), ExactScore);
    ListsReleaseFirst(r.results, RankerOf(Literal(ParseQuery("TESTING/SANTA-MARIA"))), ExactScore);
    version := VersionOf(r.results[0]);
  }

  /** How many results a search of the index gives (-1 for an error). */
  method SearchCount(i: Index, query: string, regexp: bool) returns (n: int)
    ensures !regexp ==> n == |Hits(i.charts, RankerOf(Literal(ParseQuery(query))))|
    ensures regexp && TestCompile(query).Compiled? ==> n == |Hits(i.charts, RankerOf(Pattern(TestCompile(query).matches)))|
    ensures regexp && TestCompile(query).SyntaxError? ==> n == -1
  {
    var r := i.Search(query, regexp, TestCompile);
    n := if r.Ok? then |r.results| else -1;
  }

  /** How many include-all entries each search of TestSearchByNameAll matches. */
  lemma AllCountSantaMaria()
    ensures |Hits(AllTable, RankerOf(Literal(ParseQuery("santa-maria"))))| == 2
  {
    SantaMariaRanks();
    AllSantasFromDefault(Literal(ParseQuery("santa-maria")), ExactScore);
  }

  lemma AllCountPinta()
    ensures |Hits(AllTable, RankerOf(Literal(ParseQuery("pinta"))))| == 2
  {
    PintaRanks();
    AllPintasFromDefault(Literal(ParseQuery("pinta")), ExactScore);
  }

  lemma AllCountSanta()
    ensures |Hits(AllTable, RankerOf(Literal(ParseQuery("santa"))))| == 2
  {
    SantaRanks();
    AllSantasFromDefault(Literal(ParseQuery("santa")), NameScore);
  }

  lemma AllCountThree()
    ensures |Hits(AllTable, RankerOf(Literal(ParseQuery("Three"))))| == 2
  {
    ThreeRanks();
    AllSantasFromDefault(Literal(ParseQuery("Three")), DescriptionScore);
  }

  lemma AllCountTwo()
    ensures |Hits(AllTable, RankerOf(Literal(ParseQuery("two"))))| == 2
  {
    TwoRanks();
    AllPintasFromDefault(Literal(ParseQuery("two")), DescriptionScore);
  }

  lemma AllCountUpperTwo()
    ensures |Hits(AllTable, RankerOf(Literal(ParseQuery("TWO"))))| == 2
  {
    UpperTwoRanks();
    AllPintasFromDefault(Literal(ParseQuery("TWO")), DescriptionScore);
  }

  lemma AllCountMayflower()
    ensures |Hits(AllTable, RankerOf(Literal(ParseQuery("mayflower"))))| == 0
  {
    MayflowerRanks();
    AllNoneFromDefault(Literal(ParseQuery("mayflower")));
  }

  lemma AllCountThRef()
    ensures TestCompile("Th[ref]*") == Compiled(ThRef)
    ensures |Hits(AllTable, RankerOf(Pattern(ThRef)))| == 2
  {
    ThRefRanks();
    AllSantasFromDefault(Pattern(ThRef), PatternScore);
  }

  /**
   * TestSearchByNameAll: the number of results of each search of the include-all index,
   * in the order of the test's table.
   */
  method TestSearchByNameAll() returns (counts: seq<int>)
    ensures counts == [2, 2, 2, 2, 2, 2, 2, 0, 2]
  {
    var i := LoadTestIndex(true);
    var n1 := SearchCount(i, "santa-maria", false);
    AllCountSantaMaria();
    var n2 := SearchCount(i, "pinta", false);
    AllCountPinta();
    var n3 := SearchCount(i, "santa", false);
    AllCountSanta();
    var n4 := SearchCount(i, "Three", false);
    AllCountThree();
    var n5 := SearchCount(i, "two", false);
    var n6 := SearchCount(i, "pinta", false);
    AllCountTwo();
    var n7 := SearchCount(i, "TWO", false);
    AllCountUpperTwo();
    var n8 := SearchCount(i, "mayflower", false);
    AllCountMayflower();
    var n9 := SearchCount(i, "Th[ref]*", true);
    AllCountThRef();
    counts := [n1, n2, n3, n4, n5, n6, n7, n8, n9];
  }
}
