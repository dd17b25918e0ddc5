/**
 * String helpers the search core relies on: ASCII lower-casing (Go's strings.ToLower
 * restricted to ASCII letters), prefix and substring tests (strings.HasPrefix,
 * strings.Contains), splitting at the first occurrence of a separator, and Go's
 * lexical order on strings.
 */
module Text {
  import opened Options

  predicate IsUpper(c: char) {
    'A' <= c <= 'Z'
  }

  function LowerChar(c: char): char {
    if IsUpper(c) then (c as int + 32) as char else c
  }

  /** Lower-cases every ASCII letter and leaves every other character alone. */
  function Lower(s: string): (r: string)
    ensures |r| == |s|
  {
    if s == [] then [] else [LowerChar(s[0])] + Lower(s[1..])
  }

  /**
   * Character by character: an upper-case letter becomes the letter 32 code points up,
   * anything else stays, and no upper-case letter is left.
   */
  lemma {:induction false} LowerChars(s: string)
    ensures forall i :: 0 <= i < |s| ==> Lower(s)[i] == LowerChar(s[i])
    ensures forall i :: 0 <= i < |s| ==> !IsUpper(Lower(s)[i])
    ensures forall i :: 0 <= i < |s| ==>
              if IsUpper(s[i]) then Lower(s)[i] as int == s[i] as int + 32 else Lower(s)[i] == s[i]
  {
    if s != [] {
      LowerChars(s[1..]);
      assert forall i :: 1 <= i < |s| ==> Lower(s)[i] == Lower(s[1..])[i - 1];
    }
  }

  lemma {:induction false} LowerIdempotent(s: string)
    ensures Lower(Lower(s)) == Lower(s)
  {
    if s != [] {
      LowerIdempotent(s[1..]);
      assert Lower(s)[1..] == Lower(s[1..]);
    }
  }

  lemma {:induction false} LowerConcat(a: string, b: string)
    ensures Lower(a + b) == Lower(a) + Lower(b)
  {
    if a != [] {
      assert (a + b)[1..] == a[1..] + b;
      LowerConcat(a[1..], b);
      calc {
        Lower(a + b);
        [LowerChar(a[0])] + Lower(a[1..] + b);
        [LowerChar(a[0])] + (Lower(a[1..]) + Lower(b));
        ([LowerChar(a[0])] + Lower(a[1..])) + Lower(b);
      }
    } else {
      assert a + b == b;
    }
  }

  /** Lower-casing neither creates nor removes a character that is not a letter. */
  lemma LowerKeepsNonLetter(s: string, c: char)
    requires !IsUpper(c) && !('a' <= c <= 'z')
    ensures c in s <==> c in Lower(s)
  {
    var r := Lower(s);
    LowerChars(s);
    if c in r {
      var i :| 0 <= i < |r| && r[i] == c;
      assert s[i] == c;
    }
    if c in s {
      var i :| 0 <= i < |s| && s[i] == c;
      assert r[i] == c;
    }
  }

  /** Lower-casing `s` gives `r` when `r` is `s` with each character lower-cased. */
  lemma LowerIs(s: string, r: string)
    requires |r| == |s| && forall i :: 0 <= i < |s| ==> r[i] == LowerChar(s[i])
    ensures Lower(s) == r
  {
    LowerChars(s);
  }

  /** `t` is a prefix of `s`. */
  predicate IsPrefix(t: string, s: string)
    ensures IsPrefix(t, s) ==> |t| <= |s| && t == s[..|t|]
  {
    t == [] || (s != [] && t[0] == s[0] && IsPrefix(t[1..], s[1..]))
  }

  lemma {:induction false} PrefixOfConcat(a: string, b: string)
    ensures IsPrefix(a, a + b)
  {
    if a != [] {
      assert (a + b)[1..] == a[1..] + b;
      PrefixOfConcat(a[1..], b);
    }
  }

  /** `t` occurs in `s` as a contiguous block. */
  predicate Contains(s: string, t: string)
    ensures Contains(s, t) ==> |t| <= |s|
    ensures t == [] ==> Contains(s, t)
  {
    IsPrefix(t, s) || (s != [] && Contains(s[1..], t))
  }

  lemma {:induction false} ContainsSuffix(a: string, b: string)
    ensures Contains(a + b, b)
  {
    if a == [] {
      assert a + b == b;
      PrefixOfConcat(b, []);
      assert b + [] == b;
    } else {
      assert (a + b)[1..] == a[1..] + b;
      ContainsSuffix(a[1..], b);
    }
  }

  /** The independent definition of "occurs at": a slice of `s` equal to `t`. */
  ghost predicate OccursAt(s: string, t: string, i: int) {
    0 <= i && i + |t| <= |s| && s[i..i + |t|] == t
  }

  lemma {:induction false} PrefixIsSlice(t: string, s: string)
    ensures IsPrefix(t, s) <==> OccursAt(s, t, 0)
  {
    if t != [] && s != [] {
      PrefixIsSlice(t[1..], s[1..]);
      if IsPrefix(t, s) {
        assert |t| <= |s|;
        assert s[..|t|] == [s[0]] + s[1..][..|t| - 1];
        assert t == [t[0]] + t[1..];
      }
      if OccursAt(s, t, 0) {
        assert t[0] == s[..|t|][0] == s[0];
        assert s[1..][..|t| - 1] == s[..|t|][1..];
      }
    }
  }

  /** Contains agrees with the slice definition: it holds exactly when some position holds `t`. */
  lemma {:induction false} ContainsIffOccurs(s: string, t: string)
    ensures Contains(s, t) <==> exists i :: OccursAt(s, t, i)
  {
    PrefixIsSlice(t, s);
    if s != [] {
      ContainsIffOccurs(s[1..], t);
      if Contains(s[1..], t) {
        var i :| OccursAt(s[1..], t, i);
        assert s[i + 1..i + 1 + |t|] == s[1..][i..i + |t|];
        assert OccursAt(s, t, i + 1);
      }
      if i :| OccursAt(s, t, i) {
        if i > 0 {
          assert s[1..][i - 1..i - 1 + |t|] == s[i..i + |t|];
          assert OccursAt(s[1..], t, i - 1);
        }
      }
    } else {
      if i :| OccursAt(s, t, i) {
        assert t == [];
      }
    }
  }

  /** `t` occurs in `s` when some slice of `s` is `t`. */
  lemma ContainsAt(s: string, t: string, i: int)
    requires 0 <= i && i + |t| <= |s| && s[i..i + |t|] == t
    ensures Contains(s, t)
  {
    ContainsIffOccurs(s, t);
    assert OccursAt(s, t, i);
  }

  /** Every character of an occurring string is a character of the string it occurs in. */
  lemma ContainsKeepsChar(s: string, t: string, c: char)
    requires Contains(s, t) && c in t
    ensures c in s
  {
    ContainsIffOccurs(s, t);
    var i :| OccursAt(s, t, i);
    var j :| 0 <= j < |t| && t[j] == c;
    assert s[i..i + |t|][j] == c;
  }

  /** A string holding a character that `s` lacks does not occur in `s`. */
  lemma LacksChar(s: string, t: string, c: char)
    requires c in t && c !in s
    ensures !Contains(s, t)
  {
    if Contains(s, t) {
      ContainsKeepsChar(s, t, c);
    }
  }

  /** Every pair of adjacent characters of an occurring string is a pair of the string it occurs in. */
  lemma ContainsKeepsPair(s: string, t: string, j: int)
    requires Contains(s, t) && 0 <= j && j + 1 < |t|
    ensures exists i :: 0 <= i && i + 1 < |s| && s[i] == t[j] && s[i + 1] == t[j + 1]
  {
    ContainsIffOccurs(s, t);
    var p :| OccursAt(s, t, p);
    assert s[p..p + |t|][j] == s[p + j];
    assert s[p..p + |t|][j + 1] == s[p + j + 1];
  }

  /** A string holding a pair of adjacent characters that `s` lacks does not occur in `s`. */
  lemma LacksPair(s: string, t: string, j: int)
    requires 0 <= j && j + 1 < |t|
    requires forall i :: 0 <= i && i + 1 < |s| ==> !(s[i] == t[j] && s[i + 1] == t[j + 1])
    ensures !Contains(s, t)
  {
    if Contains(s, t) {
      ContainsKeepsPair(s, t, j);
    }
  }

  /** No two adjacent characters of `s`, lower-cased, are `a` followed by `b`. */
  ghost predicate LacksLowerPair(s: string, a: char, b: char) {
    forall i :: 0 <= i && i + 1 < |s| ==> !(LowerChar(s[i]) == a && LowerChar(s[i + 1]) == b)
  }

  /** A string holding a pair that lower-cased `s` lacks does not occur in lower-cased `s`. */
  lemma LowerLacksPair(s: string, t: string, j: int)
    requires 0 <= j && j + 1 < |t| && LacksLowerPair(s, t[j], t[j + 1])
    ensures !Contains(Lower(s), t)
  {
    LowerChars(s);
    LacksPair(Lower(s), t, j);
  }

  /** The upper-case letter `c` lower-cases from, or `c` itself when it is not a lower-case letter. */
  function UpperChar(c: char): (r: char)
    ensures LowerChar(r) == c || IsUpper(c)
  {
    if 'a' <= c <= 'z' then (c as int - 32) as char else c
  }

  /** `s` holds `c` in neither case. */
  ghost predicate LacksLetter(s: string, c: char) {
    forall i :: 0 <= i < |s| ==> s[i] != c && s[i] != UpperChar(c)
  }

  /** A string holding a character that `s` lacks in either case does not occur in lower-cased `s`. */
  lemma LowerLacksChar(s: string, t: string, c: char)
    requires c in t && !IsUpper(c) && LacksLetter(s, c)
    ensures !Contains(Lower(s), t)
  {
    LowerChars(s);
    LacksChar(Lower(s), t, c);
  }

  /** The characters of `s` from position `i` on, lower-cased, spell `t`. */
  ghost predicate SpellsLower(s: string, t: string, i: int) {
    0 <= i && i + |t| <= |s| && forall j :: 0 <= j < |t| ==> LowerChar(s[i + j]) == t[j]
  }

  /** `t` occurs in lower-cased `s` where the lower-cased characters of `s` spell it. */
  lemma LowerContainsAt(s: string, t: string, i: int)
    requires SpellsLower(s, t, i)
    ensures Contains(Lower(s), t)
  {
    LowerChars(s);
    assert Lower(s)[i..i + |t|] == t;
    ContainsAt(Lower(s), t, i);
  }

  /**
   * Splits `s` at the first occurrence of `c`: the part before it holds no `c`, and the
   * two parts with `c` between them give back `s`. None exactly when `c` does not occur.
   */
  function SplitFirst(s: string, c: char): (r: Option<(string, string)>)
    ensures r.None? <==> c !in s
    ensures r.Some? ==> s == r.value.0 + [c] + r.value.1 && c !in r.value.0
  {
    if s == [] then None
    else if s[0] == c then Some(([], s[1..]))
    else match SplitFirst(s[1..], c)
      case None => None
      case Some(parts) => Some(([s[0]] + parts.0, parts.1))
  }

  /** Splitting at the first `c` gives back the parts around the first `c`. */
  lemma {:induction false} SplitAtFirst(x: string, c: char, y: string)
    requires c !in x
    ensures SplitFirst(x + [c] + y, c) == Some((x, y))
  {
    if x != [] {
      assert (x + [c] + y)[1..] == x[1..] + [c] + y;
      SplitAtFirst(x[1..], c, y);
      assert [x[0]] + x[1..] == x;
    } else {
      assert x + [c] + y == [c] + y;
    }
  }

  /** Go's `<` on strings: lexical order by character, a proper prefix first. */
  predicate StrLess(a: string, b: string)
    ensures StrLess(a, b) ==> a != b
    ensures IsPrefix(a, b) && |a| < |b| ==> StrLess(a, b)
  {
    if a == [] then b != []
    else b != [] && (a[0] < b[0] || (a[0] == b[0] && StrLess(a[1..], b[1..])))
  }

  lemma {:induction false} StrLessIrreflexive(a: string)
    ensures !StrLess(a, a)
  {
    if a != [] {
      StrLessIrreflexive(a[1..]);
    }
  }

  lemma {:induction false} StrLessTransitive(a: string, b: string, c: string)
    requires StrLess(a, b) && StrLess(b, c)
    ensures StrLess(a, c)
  {
    if a != [] && a[0] == b[0] && b[0] == c[0] {
      StrLessTransitive(a[1..], b[1..], c[1..]);
    }
  }

  lemma {:induction false} StrLessTotal(a: string, b: string)
    ensures a == b || StrLess(a, b) || StrLess(b, a)
  {
    if a != [] && b != [] && a[0] == b[0] {
      StrLessTotal(a[1..], b[1..]);
      if a[1..] == b[1..] {
        assert a == [a[0]] + a[1..] && b == [b[0]] + b[1..];
      }
    }
  }
}
