/**
 The clock behind login signatures (src/roq/deribit/tools/crypto.cpp:54-63, 78-82, 95-102):
 every signature carries a number that is fresh and not behind the time it was asked for.
 Digests are not part of this model; the texts they are taken of are.
 */
module SignatureClock {

  /** The clock after answering requests at these times, in milliseconds. */
  function Clock(times: seq<int>): int {
    if times == [] then 0 else
      var before, t := Clock(times[..|times| - 1]), times[|times| - 1];
      if before < t then t else before + 1
  }

  // Text

  function Digit(d: nat): char
    requires d < 10
  {
    '0' + d as char
  }

  predicate IsDigit(c: char) {
    '0' <= c <= '9'
  }

  function Decimal(n: nat): string {
    if n < 10 then [Digit(n)] else Decimal(n / 10) + [Digit(n % 10)]
  }

  /** At least `width` digits, filled up with zeros. */
  function Padded(n: nat, width: nat): string {
    var text := Decimal(n);
    Zeros(if |text| < width then width - |text| else 0) + text
  }

  function Zeros(n: nat): string {
    if n == 0 then "" else Zeros(n - 1) + "0"
  }

  predicate AllDigits(text: string) {
    forall i: nat :: i < |text| ==> IsDigit(text[i])
  }

  function NumberOf(text: string): nat
    requires AllDigits(text)
  {
    if text == "" then 0 else
      var last := text[|text| - 1];
      assert IsDigit(last);
      10 * NumberOf(text[..|text| - 1]) + (last as int - '0' as int)
  }

  /** What is signed, and what is sent as raw data, for number `n`. */
  function SignatureText(n: nat, nonce: string): string {
    Decimal(n) + "\n" + nonce + "\n"
  }

  function RawData(n: nat, nonce: string): string {
    Padded(n, 13) + "." + nonce
  }

  class Crypto {
    var timestamp: int
    ghost var times: seq<int>
    ghost var handedOut: seq<int>

    ghost predicate Valid()
      reads this
    {
      timestamp == Clock(times) && handedOut == Values(times)
    }

    constructor ()
      ensures Valid() && times == [] && handedOut == []
    {
      timestamp, times, handedOut := 0, [], [];
    }

    method GetSequence(t: int) returns (sequence: nat)
      requires Valid()
      modifies this
      ensures Valid() && times == old(times) + [t] && handedOut == old(handedOut) + [sequence as int]
      ensures sequence > 0 && sequence >= t && sequence > old(timestamp)
    {
      ValuesGrow(times, t);
      ClockIsNeverNegative(times);
      if timestamp < t {
        timestamp := t;
      } else {
        timestamp := timestamp + 1;
      }
      times, handedOut := times + [t], handedOut + [timestamp];
      sequence := timestamp;
    }

    method CreateSignature(t: int, nonce: string) returns (signed: string, sequence: nat)
      requires Valid()
      modifies this
      ensures Valid() && times == old(times) + [t] && handedOut == old(handedOut) + [sequence as int]
      ensures signed == SignatureText(sequence, nonce)
    {
      sequence := GetSequence(t);
      signed := Decimal(sequence) + "\n" + nonce + "\n";
    }

    method CreateRawData(t: int, nonce: string) returns (rawData: string, ghost sequence: nat)
      requires Valid()
      modifies this
      ensures Valid() && times == old(times) + [t] && handedOut == old(handedOut) + [sequence as int]
      ensures rawData == RawData(sequence, nonce)
    {
      var n := GetSequence(t);
      rawData := Padded(n, 13) + "." + nonce;
      sequence := n;
    }
  }

  lemma {:induction false} ClockIsNeverNegative(times: seq<int>)
    ensures Clock(times) >= |times|
  {
    if times != [] {
      ClockIsNeverNegative(times[..|times| - 1]);
    }
  }

  /** The values handed out for requests at `times`. */
  function Values(times: seq<int>): (values: seq<int>)
    ensures |values| == |times|
  {
    seq(|times|, i requires 0 <= i < |times| => Clock(times[..i + 1]))
  }

  lemma ValuesGrow(times: seq<int>, t: int)
    ensures Values(times + [t]) == Values(times) + [Clock(times + [t])]
    ensures Clock(times + [t]) == if Clock(times) < t then t else Clock(times) + 1
  {
    var n := |times|;
    assert (times + [t])[..n + 1] == times + [t] && (times + [t])[..n] == times;
    forall i: nat | i < n
      ensures Values(times + [t])[i] == Values(times)[i]
    {
      assert (times + [t])[..i + 1] == times[..i + 1];
    }
  }

  predicate Increasing(v: seq<int>) {
    forall i: nat, j: nat :: i < j < |v| ==> v[i] < v[j]
  }

  predicate Dominates(v: seq<int>, times: seq<int>) {
    |v| == |times| && forall i: nat :: i < |v| ==> v[i] > 0 && v[i] >= times[i]
  }

  lemma {:induction false} ClockIncreases(times: seq<int>, i: nat, j: nat)
    requires i < j <= |times|
    ensures Clock(times[..i]) < Clock(times[..j])
  {
    assert times[..j][..j - 1] == times[..j - 1];
    if i < j - 1 {
      ClockIncreases(times, i, j - 1);
    }
  }

  /** The values rise strictly, are positive and never behind the time asked for. */
  lemma {:induction false} ValuesAreFresh(times: seq<int>)
    ensures Increasing(Values(times)) && Dominates(Values(times), times)
  {
    forall i: nat, j: nat | i < j < |times|
      ensures Values(times)[i] < Values(times)[j]
    {
      ClockIncreases(times, i + 1, j + 1);
    }
    forall i: nat | i < |times|
      ensures Values(times)[i] > 0 && Values(times)[i] >= times[i]
    {
      assert times[..i + 1][..i] == times[..i];
      ClockIsNeverNegative(times[..i + 1]);
      assert Values(times)[i] == Clock(times[..i + 1]);
    }
  }

  /** Among all such sequences theirs is the least, at every position. */
  lemma {:induction false} ValuesAreLeast(times: seq<int>, v: seq<int>, i: nat)
    requires Increasing(v) && Dominates(v, times) && i < |v|
    ensures Values(times)[i] <= v[i]
  {
    assert times[..i + 1][..i] == times[..i];
    assert Values(times)[i] == Clock(times[..i + 1]);
    if i > 0 {
      assert Values(times)[i - 1] == Clock(times[..i]);
      ValuesAreLeast(times, v, i - 1);
      assert v[i - 1] < v[i];
    }
  }

  /** The time asked for at position `i`, moved on by the requests since. */
  function Reach(times: seq<int>, i: nat): int
    requires i < |times|
  {
    times[i] + (|times| - 1 - i)
  }

  /** The clock is the largest of the number of requests and of all moved-on times. */
  lemma {:induction false} ClockIsTheMaximum(times: seq<int>)
    ensures Clock(times) >= |times|
    ensures forall i: nat :: i < |times| ==> Reach(times, i) <= Clock(times)
    ensures Clock(times) == |times| || exists i: nat :: i < |times| && Clock(times) == Reach(times, i)
  {
    if times != [] {
      var n := |times| - 1;
      var earlier := times[..n];
      ClockIsTheMaximum(earlier);
      assert forall i: nat :: i < n ==> Reach(times, i) == Reach(earlier, i) + 1;
      assert Reach(times, n) == times[n];
    }
  }

  // The texts carry the number

  lemma {:induction false} DecimalBack(n: nat)
    ensures var text := Decimal(n); AllDigits(text) && NumberOf(text) == n
  {
    if n >= 10 {
      DecimalBack(n / 10);
      assert Decimal(n)[..|Decimal(n)| - 1] == Decimal(n / 10);
    } else {
      assert Decimal(n)[..0] == "";
    }
  }

  lemma {:induction false} ZerosAreNothing(k: nat)
    ensures AllDigits(Zeros(k)) && NumberOf(Zeros(k)) == 0
  {
    if k > 0 {
      ZerosAreNothing(k - 1);
      assert Zeros(k)[..|Zeros(k)| - 1] == Zeros(k - 1);
    }
  }

  lemma {:induction false} ZerosInFront(k: nat, text: string)
    requires AllDigits(text)
    ensures AllDigits(Zeros(k) + text) && NumberOf(Zeros(k) + text) == NumberOf(text)
  {
    ZerosAreNothing(k);
    if text == "" {
      assert Zeros(k) + text == Zeros(k);
    } else {
      var n := |text| - 1;
      ZerosInFront(k, text[..n]);
      assert (Zeros(k) + text)[..|Zeros(k) + text| - 1] == Zeros(k) + text[..n];
    }
  }

  lemma PaddedBack(n: nat, width: nat)
    ensures AllDigits(Padded(n, width)) && NumberOf(Padded(n, width)) == n
  {
    DecimalBack(n);
    ZerosInFront(if |Decimal(n)| < width then width - |Decimal(n)| else 0, Decimal(n));
  }

  /** No zero in front, unless it is all there is. */
  lemma {:induction false} DecimalStart(n: nat)
    ensures Decimal(n) != "" && (|Decimal(n)| > 1 ==> Decimal(n)[0] != '0') && (n > 0 ==> Decimal(n)[0] != '0')
  {
    if n >= 10 {
      DecimalStart(n / 10);
    }
  }

  lemma {:induction false} ZerosCount(n: nat)
    ensures |Zeros(n)| == n
  {
    if n > 0 {
      ZerosCount(n - 1);
    }
  }

  /** Raw data: the number in at least 13 digits, filled up with zeros only as far as that, a dot, and the nonce. */
  lemma {:induction false} RawDataReads(n: nat, nonce: string)
    ensures exists k: nat ::
              && 13 <= k < |RawData(n, nonce)|
              && AllDigits(RawData(n, nonce)[..k]) && NumberOf(RawData(n, nonce)[..k]) == n
              && (k > 13 ==> RawData(n, nonce)[0] != '0')
              && RawData(n, nonce)[k] == '.'
              && RawData(n, nonce)[k + 1..] == nonce
  {
    var p := Padded(n, 13);
    var text := RawData(n, nonce);
    PaddedBack(n, 13);
    DecimalStart(n);
    ZerosCount(if |Decimal(n)| < 13 then 13 - |Decimal(n)| else 0);
    assert text[..|p|] == p && text[|p|] == '.' && text[|p| + 1..] == nonce;
  }

  /** The text that is signed: the number without leading zeros, a newline, the nonce, and a newline. */
  lemma {:induction false} SignatureTextReads(n: nat, nonce: string)
    ensures exists k: nat ::
              && 1 <= k < |SignatureText(n, nonce)|
              && AllDigits(SignatureText(n, nonce)[..k]) && NumberOf(SignatureText(n, nonce)[..k]) == n
              && (k > 1 ==> SignatureText(n, nonce)[0] != '0')
              && SignatureText(n, nonce)[k] == '\n'
              && SignatureText(n, nonce)[k + 1..] == nonce + ['\n']
  {
    var p := Decimal(n);
    var text := SignatureText(n, nonce);
    DecimalBack(n);
    DecimalStart(n);
    assert text == p + (['\n'] + (nonce + ['\n']));
    assert text[..|p|] == p && text[|p|] == '\n' && text[|p| + 1..] == nonce + ['\n'];
  }

  /** A separator that occurs in neither front part splits a text in one way only. */
  lemma SplitsOnce(p: string, a: string, q: string, b: string, separator: char)
    requires !IsDigit(separator) && AllDigits(p) && AllDigits(q)
    requires p + [separator] + a == q + [separator] + b
    ensures p == q && a == b
  {
    if |p| < |q| {
      Longer(p, a, q, b, separator);
    } else if |q| < |p| {
      Longer(q, b, p, a, separator);
    } else {
      var text := p + [separator] + a;
      assert p == text[..|p|] && a == text[|p| + 1..];
    }
  }

  lemma Longer(p: string, a: string, q: string, b: string, separator: char)
    requires !IsDigit(separator) && |p| < |q| && p + [separator] + a == q + [separator] + b
    ensures !AllDigits(q)
  {
    assert q[|p|] == (q + [separator] + b)[|p|];
    assert (p + [separator] + a)[|p|] == separator;
  }

  /** Raw data name their number and nonce unambiguously. */
  lemma {:induction false} RawDataIsUnambiguous(n: nat, a: string, m: nat, b: string)
    requires RawData(n, a) == RawData(m, b)
    ensures n == m && a == b
  {
    PaddedBack(n, 13);
    PaddedBack(m, 13);
    SplitsOnce(Padded(n, 13), a, Padded(m, 13), b, '.');
  }

  lemma {:induction false} SignatureTextIsUnambiguous(n: nat, a: string, m: nat, b: string)
    requires SignatureText(n, a) == SignatureText(m, b)
    ensures n == m && a == b
  {
    DecimalBack(n);
    DecimalBack(m);
    assert SignatureText(n, a) == Decimal(n) + "\n" + (a + "\n");
    assert SignatureText(m, b) == Decimal(m) + "\n" + (b + "\n");
    SplitsOnce(Decimal(n), a + "\n", Decimal(m), b + "\n", '\n');
    assert a == (a + "\n")[..|a|] && b == (b + "\n")[..|b|];
  }

  /** So what one clock signs never repeats, whatever the nonces. */
  lemma {:induction false} SignedTextsNeverRepeat(times: seq<int>, i: nat, j: nat, a: string, b: string)
    requires i < j < |times|
    ensures var v := Values(times);
            && v[i] > 0 && v[j] > 0
            && SignatureText(v[i], a) != SignatureText(v[j], b)
            && RawData(v[i], a) != RawData(v[j], b)
  {
    ValuesAreFresh(times);
    var v := Values(times);
    if SignatureText(v[i], a) == SignatureText(v[j], b) {
      SignatureTextIsUnambiguous(v[i], a, v[j], b);
    }
    if RawData(v[i], a) == RawData(v[j], b) {
      RawDataIsUnambiguous(v[i], a, v[j], b);
    }
  }
}
