/**
 * The pure rules of the music page: the score shown as a six-character,
 * zero-padded decimal string, the visualiser's progress counter, the
 * horizontal layout of the title letters, and the rule by which the high
 * score is raised.
 */
module Scoring {

  /** Points for exploding a title letter. */
  const LetterPoints: nat := 10
  /** Points for exploding a spaceship. */
  const ShipPoints: nat := 100
  /** The width `padStart` pads the score to. */
  const ScoreWidth: nat := 6
  /** The progress counter counts modulo this. */
  const ProgressPeriod: int := 100
  /** Distance between neighbouring title letters. */
  const LetterSpacing: real := 2.5
  /** The title, one mesh and one explosion system per letter. */
  const Title: string := "TZYNSKI"

  // ---------------------------------------------------------------------------
  // score.toString().padStart(6, '0')
  // ---------------------------------------------------------------------------

  predicate IsDigit(c: char) {
    '0' <= c <= '9'
  }

  predicate AllDigits(s: string) {
    forall i :: 0 <= i < |s| ==> IsDigit(s[i])
  }

  function DigitChar(d: nat): (c: char)
    requires d < 10
    ensures IsDigit(c) && (c == '0' <==> d == 0)
  {
    (48 + d) as char
  }

  function DigitValue(c: char): (d: nat)
    requires IsDigit(c)
    ensures d < 10
  {
    c as int - 48
  }

  function Pow10(k: nat): (p: nat)
    ensures p >= 1
  {
    if k == 0 then 1 else 10 * Pow10(k - 1)
  }

  /** `n.toString()` for a non-negative integer: its digits, most significant first. */
  function DecimalString(n: nat): (s: string)
    ensures |s| >= 1 && AllDigits(s)
    ensures s[0] == '0' <==> n == 0
    decreases n
  {
    if n < 10 then [DigitChar(n)] else DecimalString(n / 10) + [DigitChar(n % 10)]
  }

  /** The value of a string of decimal digits (what `parseInt` gives for one). */
  function ParseDecimal(s: string): nat
    requires AllDigits(s)
  {
    if s == [] then 0 else ParseDecimal(s[..|s| - 1]) * 10 + DigitValue(s[|s| - 1])
  }

  function Zeros(k: nat): (z: string)
    ensures |z| == k
  {
    seq(k, _ => '0')
  }

  /** `s.padStart(width, '0')`: zeros in front of `s` up to `width` characters; `s` itself if it is already that long. */
  function PadStart(s: string, width: nat): (r: string)
    ensures |r| == if |s| < width then width else |s|
    ensures r[|r| - |s|..] == s
    ensures forall i :: 0 <= i < |r| - |s| ==> r[i] == '0'
  {
    if |s| < width then Zeros(width - |s|) + s else s
  }

  /** The score and high score as the page shows them. */
  function FormatScore(n: nat): string {
    PadStart(DecimalString(n), ScoreWidth)
  }

  /** Reading the digits of `n.toString()` gives back `n`. */
  lemma {:induction false} DecimalRoundTrip(n: nat)
    ensures ParseDecimal(DecimalString(n)) == n
    decreases n
  {
    var s := DecimalString(n);
    if n < 10 {
      assert s[..0] == [];
    } else {
      DecimalRoundTrip(n / 10);
      assert s[..|s| - 1] == DecimalString(n / 10);
    }
  }

  lemma {:induction false} ParseZeros(k: nat)
    ensures AllDigits(Zeros(k)) && ParseDecimal(Zeros(k)) == 0
  {
    if k > 0 {
      ParseZeros(k - 1);
      assert Zeros(k)[..k - 1] == Zeros(k - 1);
    }
  }

  /** Leading zeros do not change the value. */
  lemma {:induction false} ParseZeroPadded(k: nat, s: string)
    requires AllDigits(s)
    ensures AllDigits(Zeros(k) + s) && ParseDecimal(Zeros(k) + s) == ParseDecimal(s)
  {
    var z := Zeros(k) + s;
    if s == [] {
      assert z == Zeros(k);
      ParseZeros(k);
    } else {
      ParseZeroPadded(k, s[..|s| - 1]);
      assert z[..|z| - 1] == Zeros(k) + s[..|s| - 1];
    }
  }

  lemma DivTen(n: nat, p: nat)
    ensures n / 10 < p <==> n < 10 * p
  {
  }

  /** `n` has at most `k` digits exactly when it is below 10^k. */
  lemma {:induction false} DigitCount(n: nat, k: nat)
    requires k >= 1
    ensures |DecimalString(n)| <= k <==> n < Pow10(k)
    decreases n
  {
    if n >= 10 {
      if k == 1 {
        assert Pow10(1) == 10;
      } else {
        DigitCount(n / 10, k - 1);
        DivTen(n, Pow10(k - 1));
      }
    } else {
      PowAtLeastTen(k);
    }
  }

  lemma {:induction false} PowAtLeastTen(k: nat)
    requires k >= 1
    ensures Pow10(k) >= 10
  {
    if k > 1 {
      PowAtLeastTen(k - 1);
    }
  }

  /**
   * The displayed score is `max(6, digits)` characters long, all added
   * characters are '0', it ends in the digits of the score, and parsing it
   * gives back the score. It is exactly six characters long for every score
   * below one million.
   */
  lemma FormatScoreMeaning(n: nat)
    ensures var d, f := DecimalString(n), FormatScore(n);
      |f| == (if |d| < ScoreWidth then ScoreWidth else |d|) &&
      (forall i :: 0 <= i < |f| - |d| ==> f[i] == '0') &&
      f[|f| - |d|..] == d &&
      AllDigits(f) && ParseDecimal(f) == n
    ensures |FormatScore(n)| == ScoreWidth <==> n < Pow10(ScoreWidth)
  {
    var d := DecimalString(n);
    DecimalRoundTrip(n);
    if |d| < ScoreWidth {
      ParseZeroPadded(ScoreWidth - |d|, d);
    }
    DigitCount(n, ScoreWidth);
  }

  // ---------------------------------------------------------------------------
  // setProgress((prev) => (prev + 1) % 100)
  // ---------------------------------------------------------------------------

  /** JavaScript's `a % 100`: unlike Dafny's `%`, the remainder takes the sign of the dividend. */
  function JsRemainder(a: int): (r: int)
    ensures a >= 0 ==> 0 <= r < ProgressPeriod
    ensures a < 0 ==> -ProgressPeriod < r <= 0
    ensures -ProgressPeriod < a < ProgressPeriod ==> r == a
    ensures (a - r) % ProgressPeriod == 0
  {
    if a >= 0 then a % ProgressPeriod else -((-a) % ProgressPeriod)
  }

  function NextProgress(prev: int): int {
    JsRemainder(prev + 1)
  }

  /** From a counter in [0, 99] the next value is in [0, 99]: one more, with 99 wrapping to 0. */
  lemma NextProgressRange(prev: int)
    requires 0 <= prev < ProgressPeriod
    ensures 0 <= NextProgress(prev) < ProgressPeriod
    ensures NextProgress(prev) == if prev == ProgressPeriod - 1 then 0 else prev + 1
  {
  }

  /** The counter after `k` ticks of the one-second interval, starting from 0. */
  function ProgressAfter(k: nat): int {
    if k == 0 then 0 else NextProgress(ProgressAfter(k - 1))
  }

  lemma {:induction false} ProgressCountsModulo(k: nat)
    ensures ProgressAfter(k) == k % ProgressPeriod
  {
    if k > 0 {
      ProgressCountsModulo(k - 1);
      NextProgressModulo(k);
      assert ProgressAfter(k) == NextProgress(ProgressAfter(k - 1));
    }
  }

  lemma NextProgressModulo(k: nat)
    requires k > 0
    ensures NextProgress((k - 1) % ProgressPeriod) == k % ProgressPeriod
  {
    NextProgressRange((k - 1) % ProgressPeriod);
    ModuloSuccessor(k - 1);
  }

  lemma ModuloSuccessor(n: nat)
    ensures (n + 1) % ProgressPeriod == if n % ProgressPeriod == ProgressPeriod - 1 then 0 else n % ProgressPeriod + 1
  {
    var q, r := n / ProgressPeriod, n % ProgressPeriod;
    assert n == ProgressPeriod * q + r;
    if r == ProgressPeriod - 1 {
      assert n + 1 == ProgressPeriod * (q + 1);
    } else {
      assert n + 1 == ProgressPeriod * q + (r + 1);
    }
  }

  // ---------------------------------------------------------------------------
  // xPos = index * 2.5 - (letters.length * 2.5) / 2
  // ---------------------------------------------------------------------------

  function LetterX(index: nat, count: nat): real {
    index as real * LetterSpacing - (count as real * LetterSpacing) / 2.0
  }

  /** Neighbouring letters are 2.5 apart, and the row is in strictly increasing order. */
  lemma LetterSpacingHolds(i: nat, j: nat, count: nat)
    ensures LetterX(i + 1, count) - LetterX(i, count) == LetterSpacing
    ensures i < j ==> LetterX(i, count) < LetterX(j, count)
  {
  }

  /**
   * For the seven letters of the title the row runs from -8.75 to 6.25; the
   * first and last letter are placed symmetrically about -1.25, half a
   * spacing left of the origin.
   */
  lemma TitleLayout()
    ensures |Title| == 7
    ensures LetterX(0, |Title|) == -8.75 && LetterX(|Title| - 1, |Title|) == 6.25
    ensures forall i :: 0 <= i < |Title| ==> LetterX(i, |Title|) + LetterX(|Title| - 1 - i, |Title|) == -LetterSpacing
  {
  }

  // ---------------------------------------------------------------------------
  // updateHighScore
  // ---------------------------------------------------------------------------

  /** The high score after `updateHighScore(newScore)`: raised only by a strictly larger score. */
  function RaisedHighScore(high: nat, newScore: nat): (r: nat)
    ensures r >= high && r >= newScore
    ensures r == high || r == newScore
    ensures r != high <==> newScore > high
  {
    if newScore > high then newScore else high
  }

  /** The high score after a sequence of calls, one per score. */
  function HighScoreAfter(high: nat, scores: seq<nat>): nat {
    if scores == [] then high else RaisedHighScore(HighScoreAfter(high, scores[..|scores| - 1]), scores[|scores| - 1])
  }

  /**
   * The high score never decreases: after any sequence of updates it is at
   * least the starting value and every score offered, and it is one of them.
   */
  lemma {:induction false} HighScoreIsMaximum(high: nat, scores: seq<nat>)
    ensures HighScoreAfter(high, scores) >= high
    ensures forall i :: 0 <= i < |scores| ==> HighScoreAfter(high, scores) >= scores[i]
    ensures HighScoreAfter(high, scores) == high || exists i :: 0 <= i < |scores| && HighScoreAfter(high, scores) == scores[i]
  {
    if scores != [] {
      var n := |scores| - 1;
      HighScoreIsMaximum(high, scores[..n]);
      var prev := HighScoreAfter(high, scores[..n]);
      if prev != high && HighScoreAfter(high, scores) == prev {
        var i :| 0 <= i < n && prev == scores[..n][i];
        assert scores[i] == prev;
      }
    }
  }
}
