/**
  `_printStepBanner`: a divider of `=` as long as the step name, but never shorter
  than 80, printed before and after the name, with a blank line on the outside of each.
  Only the three logged strings are modelled, not the logging.
*/
module Banner {

  /** The minimum divider width. */
  const MinWidth: nat := 80

  /** The positions of `s` that hold a character outside the Basic Multilingual Plane. */
  function Astral(s: string): set<nat>
  {
    set i: nat | i < |s| && s[i] as int > 0xFFFF
  }

  /**
    JavaScript's `String.length`: the number of UTF-16 code units, one per character
    and one more for each character that needs a surrogate pair.
  */
  function Utf16Length(s: string): nat
  {
    |s| + |Astral(s)|
  }

  predicate InBmp(s: string) { forall i :: 0 <= i < |s| ==> s[i] as int <= 0xFFFF }

  lemma {:induction false} AstralSize(s: string)
    ensures |Astral(s)| <= |s|
  {
    if s != [] {
      var n := |s| - 1;
      var p := s[..n];
      assert Astral(s) == Astral(p) + (if s[n] as int > 0xFFFF then {n} else {}) by {
        forall i: nat | i < n
          ensures s[i] == p[i]
        {
        }
      }
      AstralSize(p);
    }
  }

  /** A character outside the Basic Multilingual Plane is two code units, every other one. */
  lemma Utf16LengthBounds(s: string)
    ensures |s| <= Utf16Length(s) <= 2 * |s|
    ensures InBmp(s) ==> Utf16Length(s) == |s|
  {
    AstralSize(s);
    if InBmp(s) {
      assert Astral(s) == {};
    }
  }

  /** `c.repeat(n)` for a one-character string `c`. */
  function Repeat(c: char, n: nat): string
  {
    seq(n, _ => c)
  }

  function Max(a: nat, b: nat): nat { if a < b then b else a }

  /** The divider line `'='.repeat(Math.max(stepName.length, 80))`. */
  function Divider(stepName: string): string
  {
    Repeat('=', Max(Utf16Length(stepName), MinWidth))
  }

  /** The three strings the banner logs, in order. */
  function BannerLines(stepName: string): seq<string>
  {
    ["\n" + Divider(stepName), stepName, Divider(stepName) + "\n"]
  }

  /** The divider is all `=`; it is as wide as the name, but at least 80. */
  lemma DividerShape(stepName: string)
    ensures forall i :: 0 <= i < |Divider(stepName)| ==> Divider(stepName)[i] == '='
    ensures |Divider(stepName)| >= MinWidth
    ensures |Divider(stepName)| >= |stepName|
    ensures |Divider(stepName)| >= Utf16Length(stepName)
    ensures Utf16Length(stepName) >= MinWidth ==> |Divider(stepName)| == Utf16Length(stepName)
    ensures Utf16Length(stepName) < MinWidth ==> |Divider(stepName)| == MinWidth
  {
    Utf16LengthBounds(stepName);
  }

  /** For a name written in the Basic Multilingual Plane the width is `max(|stepName|, 80)`. */
  lemma DividerWidthBmp(stepName: string)
    requires InBmp(stepName)
    ensures |Divider(stepName)| == if |stepName| < MinWidth then MinWidth else |stepName|
  {
    Utf16LengthBounds(stepName);
  }

  /**
    The banner is three lines: a blank line and a divider, the name itself, then the
    same divider and a blank line.
  */
  lemma BannerLayout(stepName: string)
    ensures |BannerLines(stepName)| == 3
    ensures BannerLines(stepName)[1] == stepName
    ensures BannerLines(stepName)[0][0] == '\n'
    ensures BannerLines(stepName)[2][|BannerLines(stepName)[2]| - 1] == '\n'
    ensures BannerLines(stepName)[0][1..] == BannerLines(stepName)[2][..|BannerLines(stepName)[2]| - 1]
    ensures |BannerLines(stepName)[0]| == |BannerLines(stepName)[2]| >= MinWidth + 1
    ensures forall i :: 1 <= i < |BannerLines(stepName)[0]| ==> BannerLines(stepName)[0][i] == '='
  {
    DividerShape(stepName);
  }
}
