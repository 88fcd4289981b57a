/**
  The slug sanitiser of the cog generator (`_getSlugSafeVersionOf`): three global
  regular-expression passes applied in order,

    1. every maximal run of whitespace (`/[\s]+/g`) becomes one `-`;
    2. every run of characters outside `[a-zA-Z0-9\-]` is deleted;
    3. the result is lower-cased.

  Strings are sequences of Unicode scalar values. The passes agree with JavaScript's
  UTF-16 semantics: `\s` contains no surrogate, and both halves of a surrogate pair
  lie outside the kept class, so a non-BMP character is deleted either way.
*/
module Slug {

  /** JavaScript's `\s`: the WhiteSpace and LineTerminator code points of ECMAScript. */
  predicate IsWhitespace(c: char)
  {
    c == '\t' || c == '\n' || c == '\U{000B}' || c == '\U{000C}' || c == '\r' ||
    c == ' ' || c == '\U{00A0}' || c == '\U{1680}' ||
    ('\U{2000}' <= c <= '\U{200A}') ||
    c == '\U{2028}' || c == '\U{2029}' || c == '\U{202F}' || c == '\U{205F}' ||
    c == '\U{3000}' || c == '\U{FEFF}'
  }

  predicate IsUpper(c: char) { 'A' <= c <= 'Z' }
  predicate IsLower(c: char) { 'a' <= c <= 'z' }
  predicate IsDigit(c: char) { '0' <= c <= '9' }
  predicate IsAlnum(c: char) { IsUpper(c) || IsLower(c) || IsDigit(c) }

  /** The class `[a-zA-Z0-9\-]` that the second pass keeps. */
  predicate IsKept(c: char) { IsAlnum(c) || c == '-' }

  /** The alphabet of a slug: `[a-z0-9-]`. */
  predicate IsSlugChar(c: char) { IsLower(c) || IsDigit(c) || c == '-' }

  predicate IsSlug(s: string) { forall i :: 0 <= i < |s| ==> IsSlugChar(s[i]) }

  predicate NoWhitespace(s: string) { forall i :: 0 <= i < |s| ==> !IsWhitespace(s[i]) }

  predicate AllKept(s: string) { forall i :: 0 <= i < |s| ==> IsKept(s[i]) }

  predicate NoUpper(s: string) { forall i :: 0 <= i < |s| ==> !IsUpper(s[i]) }

  /** The rest of `s` after its leading run of whitespace. */
  function DropWhitespace(s: string): (r: string)
    ensures |r| <= |s|
    ensures r == [] || !IsWhitespace(r[0])
  {
    if s != [] && IsWhitespace(s[0]) then DropWhitespace(s[1..]) else s
  }

  /** Pass 1: `replace(/[\s]+/g, '-')`. */
  function CollapseWhitespace(s: string): (r: string)
    ensures |r| <= |s|
    decreases |s|
  {
    if s == [] then []
    else if IsWhitespace(s[0]) then "-" + CollapseWhitespace(DropWhitespace(s[1..]))
    else [s[0]] + CollapseWhitespace(s[1..])
  }

  /** Pass 2: `replace(/[^a-zA-Z0-9\-]+/g, '')`; deleting each run is deleting each character. */
  function StripUnkept(s: string): (r: string)
    ensures |r| <= |s|
  {
    if s == [] then []
    else if IsKept(s[0]) then [s[0]] + StripUnkept(s[1..])
    else StripUnkept(s[1..])
  }

  /** Lower-casing of an ASCII letter; every other character is unchanged. */
  function LowerChar(c: char): char
  {
    if IsUpper(c) then (c as int - 'A' as int + 'a' as int) as char else c
  }

  /**
    Pass 3: `toLowerCase()`. Only ASCII lowering is modelled; on the output of
    pass 2 (see `StripUnkept`) it is the same as full Unicode lower-casing.
  */
  function Lower(s: string): (r: string)
    ensures |r| == |s|
  {
    if s == [] then [] else [LowerChar(s[0])] + Lower(s[1..])
  }

  /** `_getSlugSafeVersionOf(s)`. */
  function Slug(s: string): string
  {
    Lower(StripUnkept(CollapseWhitespace(s)))
  }

  /** The letters and digits of `s`, in order. */
  function Alnums(s: string): string
  {
    if s == [] then [] else (if IsAlnum(s[0]) then [s[0]] else []) + Alnums(s[1..])
  }

  // ---------------------------------------------------------------------------
  // The output alphabet
  // ---------------------------------------------------------------------------

  lemma {:induction false} CollapseNoWhitespace(s: string)
    ensures NoWhitespace(CollapseWhitespace(s))
    decreases |s|
  {
    if s != [] {
      if IsWhitespace(s[0]) {
        CollapseNoWhitespace(DropWhitespace(s[1..]));
      } else {
        CollapseNoWhitespace(s[1..]);
      }
    }
  }

  lemma {:induction false} StripAllKept(s: string)
    ensures AllKept(StripUnkept(s))
  {
    if s != [] {
      StripAllKept(s[1..]);
    }
  }

  lemma {:induction false} LowerOfKept(s: string)
    requires AllKept(s)
    ensures IsSlug(Lower(s))
  {
    if s != [] {
      LowerOfKept(s[1..]);
    }
  }

  /** A slug holds only `a`-`z`, `0`-`9` and `-`: no upper case, whitespace or `/`. */
  lemma SlugAlphabet(s: string)
    ensures IsSlug(Slug(s))
    ensures forall i :: 0 <= i < |Slug(s)| ==>
      !IsUpper(Slug(s)[i]) && !IsWhitespace(Slug(s)[i]) && Slug(s)[i] != '/'
  {
    StripAllKept(CollapseWhitespace(s));
    LowerOfKept(StripUnkept(CollapseWhitespace(s)));
  }

  /** Length never grows: a run of whitespace becomes one character, others stay or go. */
  lemma SlugLength(s: string)
    ensures |Slug(s)| <= |s|
  {
  }

  // ---------------------------------------------------------------------------
  // Idempotence and fixed points
  // ---------------------------------------------------------------------------

  lemma {:induction false} CollapseIdentity(s: string)
    requires NoWhitespace(s)
    ensures CollapseWhitespace(s) == s
  {
    if s != [] {
      CollapseIdentity(s[1..]);
    }
  }

  lemma {:induction false} StripIdentity(s: string)
    requires AllKept(s)
    ensures StripUnkept(s) == s
  {
    if s != [] {
      StripIdentity(s[1..]);
    }
  }

  lemma {:induction false} LowerIdentity(s: string)
    requires NoUpper(s)
    ensures Lower(s) == s
  {
    if s != [] {
      LowerIdentity(s[1..]);
    }
  }

  /** A string is its own slug exactly when it is already written in the slug alphabet. */
  lemma SlugFixedPoint(s: string)
    ensures Slug(s) == s <==> IsSlug(s)
  {
    if IsSlug(s) {
      CollapseIdentity(s);
      StripIdentity(s);
      LowerIdentity(s);
    }
    if Slug(s) == s {
      SlugAlphabet(s);
    }
  }

  /** Sanitising twice is sanitising once. */
  lemma SlugIdempotent(s: string)
    ensures Slug(Slug(s)) == Slug(s)
  {
    SlugAlphabet(s);
    SlugFixedPoint(Slug(s));
  }

  lemma SlugEmpty()
    ensures Slug("") == ""
  {
  }

  // ---------------------------------------------------------------------------
  // What survives: the letters and digits, in order, lower-cased
  // ---------------------------------------------------------------------------

  lemma {:induction false} AlnumsConcat(a: string, b: string)
    ensures Alnums(a + b) == Alnums(a) + Alnums(b)
  {
    if a == [] {
      assert a + b == b;
    } else {
      var head := if IsAlnum(a[0]) then [a[0]] else [];
      assert (a + b)[0] == a[0];
      assert (a + b)[1..] == a[1..] + b;
      assert Alnums(a + b) == head + Alnums(a[1..] + b);
      AlnumsConcat(a[1..], b);
      assert Alnums(a) == head + Alnums(a[1..]);
    }
  }

  lemma {:induction false} AlnumsDropWhitespace(s: string)
    ensures Alnums(DropWhitespace(s)) == Alnums(s)
  {
    if s != [] && IsWhitespace(s[0]) {
      AlnumsDropWhitespace(s[1..]);
    }
  }

  lemma {:induction false} AlnumsCollapse(s: string)
    ensures Alnums(CollapseWhitespace(s)) == Alnums(s)
    decreases |s|
  {
    if s != [] {
      if IsWhitespace(s[0]) {
        var rest := DropWhitespace(s[1..]);
        calc {
          Alnums(CollapseWhitespace(s));
          Alnums("-" + CollapseWhitespace(rest));
          { AlnumsConcat("-", CollapseWhitespace(rest)); }
          Alnums(CollapseWhitespace(rest));
          { AlnumsCollapse(rest); }
          Alnums(rest);
          { AlnumsDropWhitespace(s[1..]); }
          Alnums(s[1..]);
        }
      } else {
        calc {
          Alnums(CollapseWhitespace(s));
          Alnums([s[0]] + CollapseWhitespace(s[1..]));
          { AlnumsConcat([s[0]], CollapseWhitespace(s[1..])); }
          Alnums([s[0]]) + Alnums(CollapseWhitespace(s[1..]));
          { AlnumsCollapse(s[1..]); }
          Alnums(s);
        }
      }
    }
  }

  lemma {:induction false} AlnumsStrip(s: string)
    ensures Alnums(StripUnkept(s)) == Alnums(s)
  {
    if s != [] {
      var c, rest := s[0], s[1..];
      AlnumsStrip(rest);
      assert Alnums(s) == (if IsAlnum(c) then [c] else []) + Alnums(rest);
      if IsKept(c) {
        assert StripUnkept(s) == [c] + StripUnkept(rest);
        AlnumsConcat([c], StripUnkept(rest));
        assert Alnums([c]) == (if IsAlnum(c) then [c] else []) + Alnums([]);
      } else {
        assert StripUnkept(s) == StripUnkept(rest);
      }
    }
  }

  lemma {:induction false} AlnumsLower(s: string)
    ensures Alnums(Lower(s)) == Lower(Alnums(s))
  {
    if s != [] {
      var c := s[0];
      assert IsAlnum(LowerChar(c)) <==> IsAlnum(c);
      AlnumsLower(s[1..]);
      AlnumsConcat([LowerChar(c)], Lower(s[1..]));
      assert Alnums([LowerChar(c)]) == Lower(Alnums([c]));
      LowerConcat(Alnums([c]), Alnums(s[1..]));
    }
  }

  /** Every ASCII letter and digit of the input reaches the slug, in order, lower-cased, and nothing else alphanumeric does. */
  lemma SlugKeepsAlnums(s: string)
    ensures Alnums(Slug(s)) == Lower(Alnums(s))
  {
    AlnumsCollapse(s);
    AlnumsStrip(CollapseWhitespace(s));
    AlnumsLower(StripUnkept(CollapseWhitespace(s)));
  }

  // ---------------------------------------------------------------------------
  // A one-pass reference definition
  // ---------------------------------------------------------------------------

  /** The three passes fused into one left-to-right scan. */
  function SlugOnePass(s: string): string
    decreases |s|
  {
    if s == [] then []
    else if IsWhitespace(s[0]) then "-" + SlugOnePass(DropWhitespace(s[1..]))
    else if IsKept(s[0]) then [LowerChar(s[0])] + SlugOnePass(s[1..])
    else SlugOnePass(s[1..])
  }

  lemma {:induction false} LowerConcat(a: string, b: string)
    ensures Lower(a + b) == Lower(a) + Lower(b)
  {
    if a == [] {
      assert a + b == b;
    } else {
      assert (a + b)[1..] == a[1..] + b;
      LowerConcat(a[1..], b);
    }
  }

  lemma {:induction false} StripConcat(a: string, b: string)
    ensures StripUnkept(a + b) == StripUnkept(a) + StripUnkept(b)
  {
    if a == [] {
      assert a + b == b;
    } else {
      assert (a + b)[1..] == a[1..] + b;
      StripConcat(a[1..], b);
    }
  }

  /** The chain of three regular-expression passes equals the single scan. */
  lemma {:induction false} SlugIsOnePass(s: string)
    ensures Slug(s) == SlugOnePass(s)
    decreases |s|
  {
    if s != [] {
      var rest := if IsWhitespace(s[0]) then DropWhitespace(s[1..]) else s[1..];
      var head := if IsWhitespace(s[0]) then "-" else [s[0]];
      assert CollapseWhitespace(s) == head + CollapseWhitespace(rest);
      StripConcat(head, CollapseWhitespace(rest));
      LowerConcat(StripUnkept(head), StripUnkept(CollapseWhitespace(rest)));
      SlugIsOnePass(rest);
    }
  }
}
