/** The text form of the watermark: canonical decimals of 0 .. 2^53-1, and nothing else. */
module WatermarkText {
  import opened BrokerTypes

  /** Number.MAX_SAFE_INTEGER. */
  const MAX_FENCING_TOKEN: nat := 9007199254740991

  type Byte = c: char | c as int < 256
  type Bytes = seq<Byte>

  predicate Digit(c: char) { '0' <= c <= '9' }

  function DigitValue(c: char): nat
    requires Digit(c)
  { c as int - '0' as int }

  function Value(s: string): nat
    requires forall c :: c in s ==> Digit(c)
  {
    if s == [] then 0 else 10 * Value(s[..|s| - 1]) + DigitValue(s[|s| - 1])
  }

  /** A lone 0, or digits that do not start with one. */
  predicate Canonical(s: string) {
    s != [] && (forall c :: c in s ==> Digit(c)) && (s[0] == '0' ==> |s| == 1)
  }

  /** parseWatermarkText. `Number` is exact up to 2^53, and what is above stays above. */
  function Parse(s: string): (r: Option<nat>)
    ensures r.Some? ==> r.value <= MAX_FENCING_TOKEN
  {
    if Canonical(s) && Value(s) <= MAX_FENCING_TOKEN then Some(Value(s)) else None
  }

  function DigitOf(d: nat): Byte
    requires d < 10
  { '0' + d as char }

  /** String(n). */
  function Text(n: nat): Bytes {
    if n < 10 then [DigitOf(n)] else Text(n / 10) + [DigitOf(n % 10)]
  }

  lemma {:induction false} TextCanonical(n: nat)
    ensures Canonical(Text(n)) && Value(Text(n)) == n && (n > 0 ==> Text(n)[0] != '0')
  {
    if n < 10 {
      assert Value([DigitOf(n)]) == 10 * Value([]) + n by { assert [DigitOf(n)][..0] == []; }
    } else {
      TextCanonical(n / 10);
      assert Text(n)[..|Text(n)| - 1] == Text(n / 10);
    }
  }

  /** Two canonical texts of one value are one text. */
  lemma {:induction false} CanonicalText(s: string)
    requires Canonical(s)
    ensures Text(Value(s)) == s
    decreases |s|
  {
    var init, d := s[..|s| - 1], DigitValue(s[|s| - 1]);
    assert s == init + [s[|s| - 1]] && s[|s| - 1] in s;
    if |s| == 1 {
      assert init == [];
    } else {
      assert init[0] == s[0];
      CanonicalText(init);
      PositiveValue(init);
      assert Value(s) / 10 == Value(init) && Value(s) % 10 == d;
    }
  }

  lemma {:induction false} PositiveValue(s: string)
    requires Canonical(s) && s[0] != '0'
    ensures Value(s) > 0
    decreases |s|
  {
    assert s[|s| - 1] in s;
    if |s| > 1 {
      assert s[..|s| - 1][0] == s[0];
      PositiveValue(s[..|s| - 1]);
    } else {
      assert s[..0] == [];
    }
  }

  /** Exactly the printed watermarks are accepted, each for its own value. */
  lemma ParseInvertsText(s: string, n: nat)
    ensures Parse(s) == Some(n) <==> n <= MAX_FENCING_TOKEN && s == Text(n)
  {
    TextCanonical(n);
    if Canonical(s) { CanonicalText(s); }
  }
}
