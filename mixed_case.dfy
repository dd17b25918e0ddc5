/**
 * The mixed-case expectations of the name search. Five default-mode cases, with four
 * distinct queries, expect the ztesting chart to come back as "ztesting/Pinta", but the ztesting index file as loaded
 * lists that chart as "pinta". No search of that index can give the expected name. Loaded with
 * the chart listed as "Pinta", the index gives every expected name, the case of the index
 * file's spelling kept.
 */
module MixedCase {
  import opened Options
  import opened Text
  import opened Charts
  import opened Table
  import opened Matching
  import opened Search
  import opened Ranking
  import opened Fixtures
  import opened Expectations

  /** As written: no search of the default-mode index, by any ranking, gives a result named ztesting/Pinta. */
  lemma NoMixedCaseName(rs: seq<Result>, rank: Ranker)
    requires Enumerates(rs, DefaultTable, rank)
    ensures forall x :: x in rs ==> x.name != "ztesting/Pinta"
  {
    DefaultTableFacts();
    NinaFullName(KNina); PintaFullName(KPinta); SantaFullName(KSanta); ZPintaFullName(KZPinta);
    forall x | x in rs ensures x.name != "ztesting/Pinta" {
      ResultOfHit(DefaultTable, rank, x);
      var k :| k in DefaultTable && rank(k, DefaultTable[k]).Matched? && x == Found(k, DefaultTable[k], rank);
      assert k == KNina || k == KPinta || k == KSanta || k == KZPinta;
    }
  }

  /** As written: the search for "pinta" lists ztesting/pinta, not the expected ztesting/Pinta. */
  method SearchMixedCaseAsWritten() returns (names: seq<string>)
    ensures names == ["testing/pinta", "ztesting/pinta"]
    ensures names != ["testing/pinta", "ztesting/Pinta"]
  {
    var i := LoadTestIndex(false);
    var r := SearchSorted(i, "pinta", false, TestCompile);
    PintaRanks();
    ListsBothPintas(r.results, RankerOf(Literal(ParseQuery("pinta"))), ExactScore);
    names := Names(r.results);
  }

  /** The ztesting chart as the mixed-case expectations have it: listed, and named, "Pinta". */
  const PintaMixed := ChartVersion("Pinta", "2.0.0", "Two ship, version two", ["http://example.com/charts/pinta-2.0.0.tgz"])

  /** The ztesting index file with the chart listed as "Pinta". */
  const MixedEntries: Entries := map["Pinta" := [PintaMixed]]

  const KZMixed := Key("ztesting", "Pinta", None)

  /** The default-mode table with the corrected ztesting index file. */
  const MixedTable: map<Key, ChartVersion> := map[KNina := Nina, KPinta := Pinta, KSanta := SantaMaria, KZMixed := PintaMixed]

  lemma MixedEntriesLoaded()
    ensures RepoEntries("ztesting", MixedEntries, MixedEntries.Keys, false) == map[KZMixed := PintaMixed]
  {
    assert MixedEntries.Keys == {"Pinta"};
    RepoEntriesOfOne("ztesting", MixedEntries, "Pinta", false);
  }

  /** Loading `testing` and then the corrected `ztesting` into an empty index gives MixedTable. */
  lemma MixedTableLoaded()
    ensures WithRepo(WithRepo(map[], "testing", TestingEntries, false), "ztesting", MixedEntries, false) == MixedTable
  {
    WithTwoRepos("testing", TestingEntries, "ztesting", MixedEntries, false);
    TestingLoaded(false);
    LatestSantaMaria();
    MixedEntriesLoaded();
    UnionOfSingletons(KNina, Nina, KPinta, Pinta, KSanta, SantaMaria, KZMixed, PintaMixed);
  }

  /** Fills a fresh index as the tests do, with the corrected ztesting index file. */
  method LoadMixedIndex() returns (i: Index)
    ensures fresh(i) && i.charts == MixedTable
  {
    i := new Index();
    i.AddRepo("testing", TestingEntries, false);
    i.AddRepo("ztesting", MixedEntries, false);
    MixedTableLoaded();
  }

  /** How each of the four entries of MixedTable ranks under `rank`. */
  function MixedRanks(rank: Ranker): seq<Match> {
    [rank(KNina, Nina), rank(KPinta, Pinta), rank(KSanta, SantaMaria), rank(KZMixed, PintaMixed)]
  }

  lemma MixedModeRanks(m: Mode)
    ensures MixedRanks(RankerOf(m))
         == [Rank(KNina, Nina, m), Rank(KPinta, Pinta, m), Rank(KSanta, SantaMaria, m), Rank(KZMixed, PintaMixed, m)]
  {
  }

  /** The hits of MixedTable: the entries whose rank is a match. */
  lemma MixedHits(rank: Ranker)
    ensures Hits(MixedTable, rank)
         == Pick(MixedRanks(rank)[0].Matched?, KNina) + Pick(MixedRanks(rank)[1].Matched?, KPinta)
          + Pick(MixedRanks(rank)[2].Matched?, KSanta) + Pick(MixedRanks(rank)[3].Matched?, KZMixed)
  {
    assert MixedTable.Keys == {KNina, KPinta, KSanta, KZMixed};
    HitsOfFour(MixedTable, rank, KNina, KPinta, KSanta, KZMixed);
  }

  /** Typed in lower case, the name of the chart listed as "Pinta" still matches it exactly. */
  lemma MixedFullName(k: Key)
    requires k.repo == "ztesting" && k.chart == "Pinta"
    ensures FullName(k) == "ztesting/Pinta"
  {
  }

  lemma MixedName(s: string)
    requires s == "ztesting/Pinta"
    ensures LacksLetter(s, 'w')
  {
  }

  lemma MixedChart(s: string)
    requires s == "Pinta"
    ensures SpellsLower(s, "pinta", 0)
  {
  }

  lemma PintaRankMixed()
    ensures LiteralRank(KZMixed, PintaMixed, Plain("pinta")) == Matched(ExactScore)
  {
    MixedChart(KZMixed.chart);
    Exact(KZMixed, PintaMixed, "pinta");
  }

  lemma ZTestingPintaRankMixed()
    ensures LiteralRank(KZMixed, PintaMixed, Scoped("ztesting", "pinta")) == Matched(ExactScore)
  {
    ZTestingRepo(KZMixed.repo);
    MixedChart(KZMixed.chart);
    ScopedExact(KZMixed, PintaMixed, "ztesting", "pinta");
  }

  lemma TwoRankMixed()
    ensures LiteralRank(KZMixed, PintaMixed, Plain("two")) == Matched(DescriptionScore)
  {
    MixedName(FullName(KZMixed));
    Pinta2Description(PintaMixed.description);
    InDescription(KZMixed, PintaMixed, "two", 'w', 0);
  }

  lemma MixedPintaRanks()
    ensures MixedRanks(RankerOf(Literal(ParseQuery("pinta")))) == [NoMatch, Matched(ExactScore), NoMatch, Matched(ExactScore)]
  {
    PlainQueryIs("pinta", "pinta");
    PintaRankNina(); PintaRankPinta(); PintaRankSanta(); PintaRankMixed();
    MixedModeRanks(Literal(ParseQuery("pinta")));
  }

  lemma MixedZTestingPintaRanks()
    ensures MixedRanks(RankerOf(Literal(ParseQuery("ztesting/pinta")))) == [NoMatch, NoMatch, NoMatch, Matched(ExactScore)]
  {
    ScopedQueryIs("ztesting/pinta", "ztesting", "pinta");
    ZTestingPintaRankNina(); ZTestingPintaRankPinta(); ZTestingPintaRankSanta(); ZTestingPintaRankMixed();
    MixedModeRanks(Literal(ParseQuery("ztesting/pinta")));
  }

  lemma MixedTwoRanks()
    ensures MixedRanks(RankerOf(Literal(ParseQuery("two")))) == [NoMatch, Matched(DescriptionScore), NoMatch, Matched(DescriptionScore)]
  {
    PlainQueryIs("two", "two");
    TwoRankNina(); TwoRankPinta(); TwoRankSanta(); TwoRankMixed();
    MixedModeRanks(Literal(ParseQuery("two")));
  }

  lemma MixedUpperTwoRanks()
    ensures MixedRanks(RankerOf(Literal(ParseQuery("TWO")))) == [NoMatch, Matched(DescriptionScore), NoMatch, Matched(DescriptionScore)]
  {
    PlainQueryIs("TWO", "two");
    TwoRankNina(); TwoRankPinta(); TwoRankSanta(); TwoRankMixed();
    MixedModeRanks(Literal(ParseQuery("TWO")));
  }

  /** A sorted listing of MixedTable matching the two pinta charts names both, the ztesting one as listed. */
  lemma ListsMixedPintas(rs: seq<Result>, rank: Ranker, s: int)
    requires Enumerates(rs, MixedTable, rank) && Sorted(rs)
    requires MixedRanks(rank) == [NoMatch, Matched(s), NoMatch, Matched(s)]
    ensures Names(rs) == ["testing/pinta", "ztesting/Pinta"]
  {
    MixedHits(rank);
    assert Hits(MixedTable, rank) == {KPinta, KZMixed};
    PintaFullName(KPinta); MixedFullName(KZMixed);
    TwoHitResults(MixedTable, rank, KPinta, KZMixed);
    var x, y := Result("testing/pinta", s, Some(Pinta)), Result("ztesting/Pinta", s, Some(PintaMixed));
    assert StrLess("testing/pinta", "ztesting/Pinta");
    NameNext(x, y);
    EnumeratesTwo(rs, MixedTable, rank, x, y);
  }

  /** A listing of MixedTable matching only the ztesting chart names it as listed. */
  lemma ListsMixedZPinta(rs: seq<Result>, rank: Ranker, s: int)
    requires Enumerates(rs, MixedTable, rank)
    requires MixedRanks(rank) == [NoMatch, NoMatch, NoMatch, Matched(s)]
    ensures Names(rs) == ["ztesting/Pinta"]
  {
    MixedHits(rank);
    assert Hits(MixedTable, rank) == {KZMixed};
    MixedFullName(KZMixed);
    OneHitResult(MixedTable, rank, KZMixed);
    EnumeratesOne(rs, MixedTable, rank, Result("ztesting/Pinta", s, Some(PintaMixed)));
  }

  /** Corrected: "basic search for two results" and "search mixedCase and result should be mixedCase too". */
  method SearchMixedCase() returns (names: seq<string>)
    ensures names == ["testing/pinta", "ztesting/Pinta"]
  {
    var i := LoadMixedIndex();
    var r := SearchSorted(i, "pinta", false, TestCompile);
    MixedPintaRanks();
    ListsMixedPintas(r.results, RankerOf(Literal(ParseQuery("pinta"))), ExactScore);
    names := Names(r.results);
  }

  /** Corrected: "repo-specific search for one result". */
  method SearchMixedScoped() returns (names: seq<string>)
    ensures names == ["ztesting/Pinta"]
  {
    var i := LoadMixedIndex();
    var r := SearchSorted(i, "ztesting/pinta", false, TestCompile);
    MixedZTestingPintaRanks();
    ListsMixedZPinta(r.results, RankerOf(Literal(ParseQuery("ztesting/pinta"))), ExactScore);
    names := Names(r.results);
  }

  /** Corrected: "description search, two results". */
  method SearchMixedDescription() returns (names: seq<string>)
    ensures names == ["testing/pinta", "ztesting/Pinta"]
  {
    var i := LoadMixedIndex();
    var r := SearchSorted(i, "two", false, TestCompile);
    MixedTwoRanks();
    ListsMixedPintas(r.results, RankerOf(Literal(ParseQuery("two"))), DescriptionScore);
    names := Names(r.results);
  }

  /** Corrected: "description upper search, two results". */
  method SearchMixedUpper() returns (names: seq<string>)
    ensures names == ["testing/pinta", "ztesting/Pinta"]
  {
    var i := LoadMixedIndex();
    var r := SearchSorted(i, "TWO", false, TestCompile);
    MixedUpperTwoRanks();
    ListsMixedPintas(r.results, RankerOf(Literal(ParseQuery("TWO"))), DescriptionScore);
    names := Names(r.results);
  }
}
