/**
 * The two java.lang.String operations the checkout logic depends on:
 * `trim` (the coupon text) and `equalsIgnoreCase` (category, coupon and
 * payment-method comparisons). Case mapping covers the ASCII letters only.
 */
module JavaText {

  /** Character.toUpperCase, on ASCII letters. */
  function UpperChar(c: char): char
  {
    if 'a' <= c <= 'z' then (c as int - 32) as char else c
  }

  /** Character.toLowerCase, on ASCII letters. */
  function LowerChar(c: char): char
  {
    if 'A' <= c <= 'Z' then (c as int + 32) as char else c
  }

  /** One character step of String.regionMatches with ignoreCase set:
      equal, equal once upper-cased, or equal once upper- then lower-cased. */
  predicate CharEqualsIgnoreCase(a: char, b: char)
  {
    a == b || UpperChar(a) == UpperChar(b) || LowerChar(UpperChar(a)) == LowerChar(UpperChar(b))
  }

  /** String.equalsIgnoreCase: same length and every position matches ignoring case. */
  predicate EqualsIgnoreCase(s: string, t: string)
  {
    |s| == |t| && forall i :: 0 <= i < |s| ==> CharEqualsIgnoreCase(s[i], t[i])
  }

  /** The upper-case form of a string, position by position. */
  function UpperCase(s: string): string
  {
    seq(|s|, i requires 0 <= i < |s| => UpperChar(s[i]))
  }

  lemma CharEqualsIgnoreCaseIsUpperEquality(a: char, b: char)
    ensures CharEqualsIgnoreCase(a, b) <==> UpperChar(a) == UpperChar(b)
  {
  }

  /** Two strings are equal ignoring case exactly when their upper-case forms are equal. */
  lemma EqualsIgnoreCaseIsUpperEquality(s: string, t: string)
    ensures EqualsIgnoreCase(s, t) <==> UpperCase(s) == UpperCase(t)
  {
    if EqualsIgnoreCase(s, t) {
      forall i | 0 <= i < |s|
        ensures UpperCase(s)[i] == UpperCase(t)[i]
      {
        CharEqualsIgnoreCaseIsUpperEquality(s[i], t[i]);
      }
    }
    if UpperCase(s) == UpperCase(t) {
      forall i | 0 <= i < |s|
        ensures CharEqualsIgnoreCase(s[i], t[i])
      {
        assert UpperCase(s)[i] == UpperCase(t)[i];
        CharEqualsIgnoreCaseIsUpperEquality(s[i], t[i]);
      }
    }
  }

  /** equalsIgnoreCase is an equivalence relation. */
  lemma EqualsIgnoreCaseIsEquivalence(s: string, t: string, u: string)
    ensures EqualsIgnoreCase(s, s)
    ensures EqualsIgnoreCase(s, t) ==> EqualsIgnoreCase(t, s)
    ensures EqualsIgnoreCase(s, t) && EqualsIgnoreCase(t, u) ==> EqualsIgnoreCase(s, u)
  {
    EqualsIgnoreCaseIsUpperEquality(s, s);
    EqualsIgnoreCaseIsUpperEquality(s, t);
    EqualsIgnoreCaseIsUpperEquality(t, s);
    EqualsIgnoreCaseIsUpperEquality(t, u);
    EqualsIgnoreCaseIsUpperEquality(s, u);
  }

  /** The characters String.trim removes: every code point up to U+0020. */
  predicate IsTrimmed(c: char)
  {
    c <= ' '
  }

  /** Drops trimmable characters from the front. */
  function TrimLeading(s: string): (r: string)
    ensures |r| <= |s| && r == s[|s| - |r|..]
    ensures forall k :: 0 <= k < |s| - |r| ==> IsTrimmed(s[k])
    ensures r != [] ==> !IsTrimmed(r[0])
  {
    if s != [] && IsTrimmed(s[0]) then TrimLeading(s[1..]) else s
  }

  /** Drops trimmable characters from the back. */
  function TrimTrailing(s: string): (r: string)
    ensures |r| <= |s| && r == s[..|r|]
    ensures forall k :: |r| <= k < |s| ==> IsTrimmed(s[k])
    ensures r != [] ==> !IsTrimmed(r[|r| - 1])
  {
    if s != [] && IsTrimmed(s[|s| - 1]) then TrimTrailing(s[..|s| - 1]) else s
  }

  /** String.trim: the slice s[i..j] that remains once every leading and
      trailing character up to U+0020 is removed; it starts and ends with
      a character above U+0020, or is empty. */
  function Trim(s: string): (r: string)
    ensures var i := |s| - |TrimLeading(s)|;
      && i + |r| <= |s|
      && r == s[i..i + |r|]
      && (forall k :: 0 <= k < i ==> IsTrimmed(s[k]))
      && (forall k :: i + |r| <= k < |s| ==> IsTrimmed(s[k]))
    ensures r != [] ==> !IsTrimmed(r[0]) && !IsTrimmed(r[|r| - 1])
  {
    TrimTrailing(TrimLeading(s))
  }

  /** A string that neither starts nor ends with a trimmable character is its own trim. */
  lemma TrimUnpadded(s: string)
    requires s != [] ==> !IsTrimmed(s[0]) && !IsTrimmed(s[|s| - 1])
    ensures Trim(s) == s
  {
    assert TrimLeading(s) == s;
  }

  /** Every character of `s` is trimmable. */
  predicate AllTrimmed(s: string)
  {
    forall k :: 0 <= k < |s| ==> IsTrimmed(s[k])
  }

  lemma {:induction false} TrimLeadingPadded(pad: string, s: string)
    requires AllTrimmed(pad)
    requires s != [] ==> !IsTrimmed(s[0])
    ensures TrimLeading(pad + s) == s
  {
    if pad == [] {
      assert pad + s == s;
    } else {
      assert (pad + s)[1..] == pad[1..] + s;
      TrimLeadingPadded(pad[1..], s);
    }
  }

  lemma {:induction false} TrimTrailingPadded(s: string, tail: string)
    requires AllTrimmed(tail)
    requires s != [] ==> !IsTrimmed(s[|s| - 1])
    ensures TrimTrailing(s + tail) == s
  {
    if tail == [] {
      assert s + tail == s;
    } else {
      var n := |tail| - 1;
      assert (s + tail)[..|s + tail| - 1] == s + tail[..n];
      TrimTrailingPadded(s, tail[..n]);
    }
  }

  /** The converse of Trim's contract: trimmable padding around a core that neither
      starts nor ends with a trimmable character trims to exactly that core. */
  lemma TrimPadded(pad: string, core: string, tail: string)
    requires AllTrimmed(pad) && AllTrimmed(tail)
    requires core != [] ==> !IsTrimmed(core[0]) && !IsTrimmed(core[|core| - 1])
    ensures Trim(pad + core + tail) == core
  {
    if core == [] {
      assert pad + core + tail == (pad + tail) + core;
      TrimLeadingPadded(pad + tail, core);
    } else {
      assert pad + core + tail == pad + (core + tail);
      TrimLeadingPadded(pad, core + tail);
      TrimTrailingPadded(core, tail);
    }
  }

  /** Trimming twice is trimming once. */
  lemma TrimIdempotent(s: string)
    ensures Trim(Trim(s)) == Trim(s)
  {
    TrimUnpadded(Trim(s));
  }
}
