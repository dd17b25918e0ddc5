/**
 * How one stored entry is matched against a query. Literal queries are lower-cased and
 * split at the first '/' into a repository scope and a term; pattern queries use a
 * compiled regular expression supplied by the caller.
 */
module Matching {
  import opened Options
  import opened Text
  import opened Charts

  /** A lower-cased literal query: a bare term, or a term scoped to one repository. */
  datatype Query = Plain(term: string) | Scoped(repo: string, term: string)

  /**
   * The query `q` as typed: scoped exactly when it holds a '/', the scope being the part
   * before the first '/'. Together the parts give back the lower-cased query.
   */
  function ParseQuery(q: string): (r: Query)
    ensures r.Plain? <==> '/' !in q
    ensures r.Plain? ==> r.term == Lower(q)
    ensures r.Scoped? ==> Lower(q) == r.repo + "/" + r.term && '/' !in r.repo
  {
    LowerKeepsNonLetter(q, '/');
    match SplitFirst(Lower(q), '/')
    case None => Plain(Lower(q))
    case Some(parts) => Scoped(parts.0, parts.1)
  }

  /** A query without '/' is its lower-cased text. */
  lemma PlainQuery(q: string)
    requires '/' !in q
    ensures ParseQuery(q) == Plain(Lower(q))
  {
  }

  /** A query whose lower-cased text is `repo/term`, with no '/' in `repo`, is scoped to `repo`. */
  lemma ScopedQuery(q: string, repo: string, term: string)
    requires Lower(q) == repo + "/" + term && '/' !in repo
    ensures ParseQuery(q) == Scoped(repo, term)
  {
    assert Lower(q) == repo + ['/'] + term;
    SplitAtFirst(repo, '/', term);
    LowerKeepsNonLetter(q, '/');
  }

  /** Typing a query in another case gives the same query. */
  lemma QueryIgnoresCase(q: string)
    ensures ParseQuery(Lower(q)) == ParseQuery(q)
  {
    LowerIdempotent(q);
  }

  /** Score tiers of a literal match (lower is better) and of a pattern match. */
  const ExactScore := 0
  const NameScore := 1
  const DescriptionScore := 2
  const PatternScore := 0

  /** The outcome of matching one entry: excluded, or kept with a score. */
  datatype Match = NoMatch | Matched(score: int)

  /**
   * A lower-cased term against an entry's lower-cased fields: the exact chart name ranks
   * best, then a substring of the name, then a substring of the description only.
   */
  function TermRank(name: string, chart: string, description: string, term: string): (r: Match)
    ensures r.Matched? <==> term == chart || Contains(name, term) || Contains(description, term)
    ensures r == Matched(ExactScore) <==> term == chart
    ensures r == Matched(DescriptionScore) <==> term != chart && !Contains(name, term) && Contains(description, term)
    ensures r.Matched? ==> r.score in {ExactScore, NameScore, DescriptionScore}
  {
    if term == chart then Matched(ExactScore)
    else if Contains(name, term) then Matched(NameScore)
    else if Contains(description, term) then Matched(DescriptionScore)
    else NoMatch
  }

  /**
   * A literal query against one entry. A bare term is looked for in the fully qualified
   * name and the description; a scoped term only in entries of that repository, and there
   * in the chart name and the description.
   */
  function LiteralRank(k: Key, cv: ChartVersion, q: Query): (r: Match)
    ensures q.Scoped? && Lower(k.repo) != q.repo ==> r == NoMatch
    ensures r == Matched(ExactScore) <==> Lower(k.chart) == q.term && (q.Scoped? ==> Lower(k.repo) == q.repo)
    ensures r.Matched? ==> r.score in {ExactScore, NameScore, DescriptionScore}
  {
    match q
    case Plain(t) => TermRank(Lower(FullName(k)), Lower(k.chart), Lower(cv.description), t)
    case Scoped(r, t) =>
      if Lower(k.repo) == r then TermRank(Lower(k.chart), Lower(k.chart), Lower(cv.description), t)
      else NoMatch
  }

  /** A compiled pattern against one entry: tested on the fully qualified name and the description, as stored. */
  function PatternRank(k: Key, cv: ChartVersion, matches: string -> bool): (r: Match)
    ensures r.Matched? <==> matches(FullName(k)) || matches(cv.description)
    ensures r.Matched? ==> r.score == PatternScore
  {
    if matches(FullName(k)) || matches(cv.description) then Matched(PatternScore) else NoMatch
  }

  /** The two search strategies, chosen once per search. */
  datatype Mode = Literal(query: Query) | Pattern(matches: string -> bool)

  /** How one search mode ranks an entry. */
  function Rank(k: Key, cv: ChartVersion, m: Mode): Match {
    match m
    case Literal(q) => LiteralRank(k, cv, q)
    case Pattern(p) => PatternRank(k, cv, p)
  }

  /** A ranking of entries by key and chart version. */
  type Ranker = (Key, ChartVersion) -> Match

  /** The ranking a search mode applies to every entry. */
  function RankerOf(m: Mode): Ranker {
    (k, cv) => Rank(k, cv, m)
  }

  /** The result reported for a matching entry. */
  function Found(k: Key, cv: ChartVersion, rank: Ranker): Result
    requires rank(k, cv).Matched?
  {
    Result(FullName(k), rank(k, cv).score, Some(cv))
  }

  /** The keys among `dom` whose entries match. */
  function HitsAmong(table: map<Key, ChartVersion>, rank: Ranker, dom: set<Key>): set<Key> {
    set k | k in dom && k in table && rank(k, table[k]).Matched?
  }

  /** The results for the matching keys among `dom`. */
  function ResultsAmong(table: map<Key, ChartVersion>, rank: Ranker, dom: set<Key>): set<Result> {
    set k | k in HitsAmong(table, rank, dom) :: Found(k, table[k], rank)
  }

  /** The keys of all matching entries of the table. */
  function Hits(table: map<Key, ChartVersion>, rank: Ranker): set<Key> {
    HitsAmong(table, rank, table.Keys)
  }

  /** The results for all matching entries of the table. */
  function HitResults(table: map<Key, ChartVersion>, rank: Ranker): set<Result> {
    ResultsAmong(table, rank, table.Keys)
  }

  /** Every result comes from a matching entry of the table. */
  lemma ResultOfHit(table: map<Key, ChartVersion>, rank: Ranker, x: Result)
    requires x in HitResults(table, rank)
    ensures exists k :: k in table && rank(k, table[k]).Matched? && x == Found(k, table[k], rank)
  {
  }

  /** Looking at one more key adds it to the hits exactly when its entry matches. */
  lemma HitsStep(table: map<Key, ChartVersion>, rank: Ranker, dom: set<Key>, k: Key)
    requires k in table && k !in dom
    ensures var matched := rank(k, table[k]).Matched?;
            HitsAmong(table, rank, dom + {k}) == HitsAmong(table, rank, dom) + (if matched then {k} else {})
            && |HitsAmong(table, rank, dom + {k})| == |HitsAmong(table, rank, dom)| + (if matched then 1 else 0)
            && ResultsAmong(table, rank, dom + {k})
               == ResultsAmong(table, rank, dom) + (if matched then {Found(k, table[k], rank)} else {})
  {
    var matched := rank(k, table[k]).Matched?;
    assert HitsAmong(table, rank, dom + {k}) == HitsAmong(table, rank, dom) + (if matched then {k} else {});
    assert k !in HitsAmong(table, rank, dom);
  }

  lemma ContainsItself(s: string)
    ensures Contains(s, s)
  {
    PrefixOfConcat(s, []);
    assert s + [] == s;
  }

  /**
   * A bare term matches exactly when it is a substring of the lower-cased fully qualified
   * name or of the lower-cased description.
   */
  lemma PlainMatchIsSubstring(k: Key, cv: ChartVersion, t: string)
    ensures LiteralRank(k, cv, Plain(t)).Matched?
        <==> Contains(Lower(FullName(k)), t) || Contains(Lower(cv.description), t)
  {
    if t == Lower(k.chart) {
      LowerConcat(k.repo + "/", k.chart);
      ContainsSuffix(Lower(k.repo + "/"), Lower(k.chart));
    }
  }

  /**
   * A query `repository/term` matches exactly the entries of that repository (compared
   * without case) whose chart name or description holds the term.
   */
  lemma ScopedMatchIsRepoAndSubstring(k: Key, cv: ChartVersion, q: string)
    requires ParseQuery(q).Scoped?
    ensures LiteralRank(k, cv, ParseQuery(q)).Matched?
        <==> Lower(k.repo) == ParseQuery(q).repo
             && (Contains(Lower(k.chart), ParseQuery(q).term) || Contains(Lower(cv.description), ParseQuery(q).term))
  {
    ContainsItself(Lower(k.chart));
  }

  /** Every literal match scores at least the exact-name score, and an exact name match gets it. */
  lemma ExactNameRanksBest(k: Key, cv: ChartVersion, q: Query, other: Key, ocv: ChartVersion)
    requires q.term == Lower(k.chart)
    requires q.Scoped? ==> Lower(k.repo) == q.repo
    requires LiteralRank(other, ocv, q).Matched?
    ensures LiteralRank(k, cv, q) == Matched(ExactScore)
    ensures LiteralRank(k, cv, q).score <= LiteralRank(other, ocv, q).score
  {
  }

  /** A match in the name always ranks strictly better than a match found only in the description. */
  lemma NameBeatsDescription(k1: Key, cv1: ChartVersion, k2: Key, cv2: ChartVersion, t: string)
    requires Contains(Lower(FullName(k1)), t)
    requires !Contains(Lower(FullName(k2)), t) && Contains(Lower(cv2.description), t)
    ensures LiteralRank(k1, cv1, Plain(t)).Matched? && LiteralRank(k2, cv2, Plain(t)).Matched?
    ensures LiteralRank(k1, cv1, Plain(t)).score < LiteralRank(k2, cv2, Plain(t)).score
  {
    if t == Lower(k2.chart) {
      LowerConcat(k2.repo + "/", k2.chart);
      ContainsSuffix(Lower(k2.repo + "/"), Lower(k2.chart));
    }
  }
}
