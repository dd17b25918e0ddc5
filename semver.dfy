/**
 * Semantic versions of the form MAJOR.MINOR.PATCH[-PRE] and the total order on version
 * strings the result ranker sorts by. A well-formed version sorts above every malformed
 * one; malformed strings compare lexically, so the order stays total and deterministic.
 */
module SemVer {
  import opened Options
  import opened Text

  /** A parsed version; `pre` is the pre-release tag, "" for a release. */
  datatype Version = Version(major: nat, minor: nat, patch: nat, pre: string)

  predicate IsDigit(c: char) {
    '0' as int <= c as int <= '9' as int
  }

  predicate IsNumeral(s: string) {
    s != [] && forall i :: 0 <= i < |s| ==> IsDigit(s[i])
  }

  function DigitChar(d: nat): char
    requires d < 10
  {
    ('0' as int + d) as char
  }

  /** The number a string of decimal digits denotes (leading zeros allowed). */
  function NumeralValue(s: string): nat
    requires forall i :: 0 <= i < |s| ==> IsDigit(s[i])
  {
    if s == [] then 0
    else
      var last := s[|s| - 1];
      assert IsDigit(last);
      NumeralValue(s[..|s| - 1]) * 10 + (last as int - '0' as int)
  }

  /** The shortest decimal numeral of `n`. */
  function Decimal(n: nat): (r: string)
    ensures IsNumeral(r)
  {
    if n < 10 then [DigitChar(n)] else Decimal(n / 10) + [DigitChar(n % 10)]
  }

  lemma {:induction false} DecimalRoundTrip(n: nat)
    ensures NumeralValue(Decimal(n)) == n
  {
    if n >= 10 {
      DecimalRoundTrip(n / 10);
      var d := Decimal(n);
      assert d[..|d| - 1] == Decimal(n / 10);
    }
  }

  /**
   * Parses MAJOR.MINOR.PATCH[-PRE]: three non-empty digit strings separated by dots,
   * optionally followed by a dash and a non-empty pre-release tag (everything after the
   * first dash). Anything else is malformed.
   */
  function Parse(s: string): (r: Option<Version>)
    ensures '.' !in s ==> r == None
    ensures r.Some? ==> (r.value.pre != "" <==> '-' in s)
  {
    var (core, pre, dashed) :=
      match SplitFirst(s, '-')
      case None => (s, "", false)
      case Some(parts) => (parts.0, parts.1, true);
    if dashed && pre == "" then None
    else match SplitFirst(core, '.')
      case None => None
      case Some(first) =>
        match SplitFirst(first.1, '.')
        case None => None
        case Some(second) =>
          var (ma, mi, pa) := (first.0, second.0, second.1);
          if IsNumeral(ma) && IsNumeral(mi) && IsNumeral(pa)
          then Some(Version(NumeralValue(ma), NumeralValue(mi), NumeralValue(pa), pre))
          else None
  }

  /** The canonical text of a version. */
  function Format(v: Version): string {
    Decimal(v.major) + "." + Decimal(v.minor) + "." + Decimal(v.patch)
    + (if v.pre == "" then "" else "-" + v.pre)
  }

  lemma NumeralHasNo(s: string, c: char)
    requires IsNumeral(s) && !IsDigit(c)
    ensures c !in s
  {
  }

  /** Three dash-free parts joined by dots hold no dash. */
  lemma CoreHasNoDash(ma: string, mi: string, pa: string)
    requires '-' !in ma && '-' !in mi && '-' !in pa
    ensures '-' !in ma + "." + mi + "." + pa
  {
    var core := ma + "." + mi + "." + pa;
    forall i | 0 <= i < |core| ensures core[i] != '-' {
      if i < |ma| { assert core[i] == ma[i]; }
      else if i == |ma| { assert core[i] == '.'; }
      else if i < |ma| + 1 + |mi| { assert core[i] == mi[i - |ma| - 1]; }
      else if i == |ma| + 1 + |mi| { assert core[i] == '.'; }
      else { assert core[i] == pa[i - |ma| - |mi| - 2]; }
    }
  }

  /** Parsing the canonical text of a version gives that version back. */
  lemma ParseFormat(v: Version)
    ensures Parse(Format(v)) == Some(v)
  {
    var ma, mi, pa := Decimal(v.major), Decimal(v.minor), Decimal(v.patch);
    DecimalRoundTrip(v.major);
    DecimalRoundTrip(v.minor);
    DecimalRoundTrip(v.patch);
    NumeralHasNo(ma, '.');
    NumeralHasNo(mi, '.');
    NumeralHasNo(ma, '-');
    NumeralHasNo(mi, '-');
    NumeralHasNo(pa, '-');
    var core := ma + "." + mi + "." + pa;
    CoreHasNoDash(ma, mi, pa);
    if v.pre == "" {
      assert Format(v) == core;
    } else {
      assert Format(v) == core + ['-'] + v.pre;
      SplitAtFirst(core, '-', v.pre);
    }
    assert core == ma + ['.'] + (mi + "." + pa);
    SplitAtFirst(ma, '.', mi + "." + pa);
    assert mi + "." + pa == mi + ['.'] + pa;
    SplitAtFirst(mi, '.', pa);
  }

  /** Pre-release precedence: a release ("") outranks any pre-release; tags compare lexically. */
  predicate PreLess(p: string, q: string) {
    p != "" && (q == "" || StrLess(p, q))
  }

  /** Version precedence: numeric on MAJOR, MINOR, PATCH in turn, then the pre-release tag. */
  predicate Precedes(a: Version, b: Version) {
    a.major < b.major
    || (a.major == b.major && (a.minor < b.minor
    || (a.minor == b.minor && (a.patch < b.patch
    || (a.patch == b.patch && PreLess(a.pre, b.pre))))))
  }

  /**
   * The order on version strings given their parses: well-formed above malformed,
   * precedence between well-formed ones, and the text itself as the last resort.
   */
  predicate KeyLess(ps: Option<Version>, s: string, pt: Option<Version>, t: string) {
    match (ps, pt)
    case (Some(a), Some(b)) => Precedes(a, b) || (a == b && StrLess(s, t))
    case (None, Some(_)) => true
    case (Some(_), None) => false
    case (None, None) => StrLess(s, t)
  }

  /** The order on version strings: `s` sorts below `t`. */
  predicate VersionLess(s: string, t: string)
    ensures VersionLess(s, t) ==> s != t
    ensures Parse(s).None? && Parse(t).Some? ==> VersionLess(s, t)
    ensures Parse(s).Some? && Parse(t).None? ==> !VersionLess(s, t)
    ensures Parse(s).Some? && Parse(t).Some? && Precedes(Parse(s).value, Parse(t).value) ==> VersionLess(s, t)
  {
    KeyLess(Parse(s), s, Parse(t), t)
  }

  lemma PreLessTotal(p: string, q: string)
    ensures p == q || PreLess(p, q) || PreLess(q, p)
  {
    StrLessTotal(p, q);
  }

  lemma PrecedesTransitive(a: Version, b: Version, c: Version)
    requires Precedes(a, b) && Precedes(b, c)
    ensures Precedes(a, c)
  {
    if a.major == c.major && a.minor == c.minor && a.patch == c.patch {
      if a.pre != "" && b.pre != "" && c.pre != "" {
        StrLessTransitive(a.pre, b.pre, c.pre);
      }
    }
  }

  lemma KeyLessTransitive(ps: Option<Version>, s: string, pt: Option<Version>, t: string,
                          pu: Option<Version>, u: string)
    requires KeyLess(ps, s, pt, t) && KeyLess(pt, t, pu, u)
    ensures KeyLess(ps, s, pu, u)
  {
    match (ps, pt, pu)
    case (Some(a), Some(b), Some(c)) =>
      StrLessIrreflexive(a.pre);
      if a == b && b == c {
        StrLessTransitive(s, t, u);
      } else if a != b && b != c {
        PrecedesTransitive(a, b, c);
      }
    case (None, None, None) =>
      StrLessTransitive(s, t, u);
    case (_, _, _) =>
  }

  lemma KeyLessTotal(ps: Option<Version>, s: string, pt: Option<Version>, t: string)
    requires s == t ==> ps == pt
    ensures s == t || KeyLess(ps, s, pt, t) || KeyLess(pt, t, ps, s)
  {
    StrLessTotal(s, t);
    match (ps, pt)
    case (Some(a), Some(b)) =>
      PreLessTotal(a.pre, b.pre);
    case (_, _) =>
  }

  lemma VersionLessIrreflexive(s: string)
    ensures !VersionLess(s, s)
  {
    StrLessIrreflexive(s);
    match Parse(s)
    case Some(a) =>
      StrLessIrreflexive(a.pre);
    case None =>
  }

  lemma VersionLessTransitive(s: string, t: string, u: string)
    requires VersionLess(s, t) && VersionLess(t, u)
    ensures VersionLess(s, u)
  {
    KeyLessTransitive(Parse(s), s, Parse(t), t, Parse(u), u);
  }

  lemma VersionLessTotal(s: string, t: string)
    ensures s == t || VersionLess(s, t) || VersionLess(t, s)
  {
    KeyLessTotal(Parse(s), s, Parse(t), t);
  }

  /** If neither s < t nor t < u, then not s < u: "at least" is transitive. */
  lemma VersionLessNegTransitive(s: string, t: string, u: string)
    requires !VersionLess(s, t) && !VersionLess(t, u)
    ensures !VersionLess(s, u)
  {
    VersionLessTotal(s, t);
    VersionLessTotal(t, u);
    if s != t && t != u && VersionLess(s, u) {
      VersionLessTransitive(s, u, t);
    }
  }

  lemma ParsesTo(text: string, v: Version)
    requires text == Format(v)
    ensures Parse(text) == Some(v)
  {
    ParseFormat(v);
  }

  lemma LessByPrecedence(s: string, a: Version, t: string, b: Version)
    requires Parse(s) == Some(a) && Parse(t) == Some(b) && Precedes(a, b)
    ensures VersionLess(s, t)
  {
  }

  lemma ParsePreRelease()
    ensures Parse("1.2.2-RC-1") == Some(Version(1, 2, 2, "RC-1"))
  {
    assert Decimal(1) == "1" && Decimal(2) == "2";
    assert Format(Version(1, 2, 2, "RC-1")) == "1.2.2-RC-1";
    ParseFormat(Version(1, 2, 2, "RC-1"));
  }

  lemma ParseRelease123()
    ensures Parse("1.2.3") == Some(Version(1, 2, 3, ""))
  {
    assert Decimal(1) == "1" && Decimal(2) == "2" && Decimal(3) == "3";
    ParsesTo("1.2.3", Version(1, 2, 3, ""));
  }

  /** A release outranks the pre-release of the next-lower patch. */
  lemma ReleaseAbovePreRelease()
    ensures VersionLess("1.2.2-RC-1", "1.2.3")
  {
    ParsePreRelease();
    ParseRelease123();
    LessByPrecedence("1.2.2-RC-1", Version(1, 2, 2, "RC-1"), "1.2.3", Version(1, 2, 3, ""));
  }

  lemma ParseRelease124()
    ensures Parse("1.2.4") == Some(Version(1, 2, 4, ""))
  {
    assert Decimal(1) == "1" && Decimal(2) == "2" && Decimal(4) == "4";
    ParsesTo("1.2.4", Version(1, 2, 4, ""));
  }

  /** Patch numbers compare numerically. */
  lemma PatchOrder()
    ensures VersionLess("1.2.3", "1.2.4")
  {
    ParseRelease123();
    ParseRelease124();
    LessByPrecedence("1.2.3", Version(1, 2, 3, ""), "1.2.4", Version(1, 2, 4, ""));
  }
}
