/** Percent values with six decimals, handled on strings (internal/word/model.go). */
module Frequency {
  import opened Basics
  import opened Text

  datatype FrequencyError = BadShape | OutOfRange

  predicate IsDigit(c: char) {
    '0' <= c <= '9'
  }

  predicate AllDigits(s: string) {
    forall i | 0 <= i < |s| :: IsDigit(s[i])
  }

  /** The source's loop over the characters. */
  method ScanDigits(s: string) returns (ok: bool)
    ensures ok <==> AllDigits(s)
  {
    for i := 0 to |s|
      invariant AllDigits(s[..i])
    {
      if s[i] < '0' || s[i] > '9' {
        assert !IsDigit(s[i]);
        return false;
      }
      assert forall j | 0 <= j < i :: s[j] == s[..i][j];
    }
    assert s[..|s|] == s;
    return true;
  }

  /** strings.Cut at the first '.': the text before it, and the text after it ("" if there is none). */
  function Cut(s: string): (string, string) {
    if s == "" then ("", "")
    else if s[0] == '.' then ("", s[1..])
    else var (before, after) := Cut(s[1..]); ([s[0]] + before, after)
  }

  function Zeros(n: nat): string {
    seq(n, _ => '0')
  }

  function StripZeros(s: string): string {
    if s != "" && s[0] == '0' then StripZeros(s[1..]) else s
  }

  /** Go's byte-wise string order. */
  predicate Less(a: string, b: string) {
    if a == "" || b == "" then a == "" && b != ""
    else a[0] < b[0] || (a[0] == b[0] && Less(a[1..], b[1..]))
  }

  function NormalizeFrequency(s: string): Result<string, FrequencyError> {
    var t := TrimSpace(s);
    var (intPart, frac) := Cut(t);
    if intPart == "" || |intPart| > 3 || !AllDigits(intPart) || !AllDigits(frac) || |frac| > 6 then
      Err(BadShape)
    else
      var fracPart := frac + Zeros(6 - |frac|);
      var over100 := |intPart| == 3 && Less("100", intPart);
      var at100 := |intPart| == 3 && intPart == "100";
      if over100 || (at100 && fracPart != "000000") then Err(OutOfRange)
      else
        var stripped := StripZeros(intPart);
        Ok((if stripped == "" then "0" else stripped) + "." + fracPart)
  }

  // --- What the strings mean: a number of millionths of a percent ---

  function Digit(c: char): nat
    requires IsDigit(c)
  {
    (c - '0') as nat
  }

  function Nat(s: string): nat
    requires AllDigits(s)
  {
    if s == "" then 0 else 10 * Nat(s[..|s| - 1]) + Digit(s[|s| - 1])
  }

  function Pow10(n: nat): (p: nat)
    ensures p >= 1
  {
    if n == 0 then 1 else 10 * Pow10(n - 1)
  }

  /** t is written as ip or ip.fp, with 1 to 3 integer digits and at most 6 fraction digits. */
  ghost predicate Decimal(t: string, ip: string, fp: string) {
    && 1 <= |ip| <= 3 && AllDigits(ip)
    && |fp| <= 6 && AllDigits(fp)
    && (t == ip + "." + fp || (t == ip && fp == ""))
  }

  function Millionths(ip: string, fp: string): nat
    requires AllDigits(ip) && AllDigits(fp) && |fp| <= 6
  {
    Nat(ip) * 1_000_000 + Nat(fp) * Pow10(6 - |fp|)
  }

  const LIMIT: nat := 100_000_000

  /** Text s denotes v millionths. */
  ghost predicate Denotes(s: string, v: nat) {
    exists ip, fp :: Decimal(TrimSpace(s), ip, fp) && Millionths(ip, fp) == v
  }

  lemma {:induction false} CutDecimal(ip: string, tail: string)
    requires AllDigits(ip)
    ensures Cut(ip + "." + tail) == (ip, tail)
    ensures Cut(ip) == (ip, "")
  {
    if ip == "" {
      assert "." + tail == ['.'] + tail && (['.'] + tail)[1..] == tail;
      assert ip + "." + tail == ['.'] + tail;
    } else {
      assert (ip + "." + tail)[1..] == ip[1..] + "." + tail;
      assert AllDigits(ip[1..]);
      CutDecimal(ip[1..], tail);
      assert [ip[0]] + ip[1..] == ip;
    }
  }

  lemma {:induction false} CutRejoins(t: string)
    ensures t == Cut(t).0 + "." + Cut(t).1 || (t == Cut(t).0 && Cut(t).1 == "")
  {
    if t != "" && t[0] != '.' {
      CutRejoins(t[1..]);
      assert t == [t[0]] + t[1..];
    } else if t != "" {
      assert t == "" + "." + t[1..];
    }
  }

  lemma {:induction false} NatSplit(a: string, b: string)
    requires AllDigits(a) && AllDigits(b)
    ensures AllDigits(a + b)
    ensures Nat(a + b) == Nat(a) * Pow10(|b|) + Nat(b)
  {
    if b == "" {
      assert a + b == a;
    } else {
      var c, d := b[..|b| - 1], b[|b| - 1];
      NatSplit(a, c);
      assert (a + b)[..|a + b| - 1] == a + c;
      assert (a + b)[|a + b| - 1] == d;
      assert 10 * (Nat(a) * Pow10(|c|)) == Nat(a) * (10 * Pow10(|c|));
    }
  }

  lemma {:induction false} NatZeros(n: nat)
    ensures AllDigits(Zeros(n)) && Nat(Zeros(n)) == 0
  {
    if n == 0 {
    } else {
      NatZeros(n - 1);
      assert Zeros(n)[..n - 1] == Zeros(n - 1);
    }
  }

  lemma {:induction false} StripZerosKeepsNat(s: string)
    requires AllDigits(s)
    ensures AllDigits(StripZeros(s)) && Nat(StripZeros(s)) == Nat(s)
    ensures |StripZeros(s)| <= |s|
    ensures StripZeros(s) == "" || StripZeros(s)[0] != '0'
  {
    if s != "" && s[0] == '0' {
      StripZerosKeepsNat(s[1..]);
      NatSplit([s[0]], s[1..]);
      assert [s[0]] + s[1..] == s;
      assert Nat([s[0]]) == 0 by { assert [s[0]][..0] == ""; }
    }
  }

  lemma {:induction false} NatBound(s: string)
    requires AllDigits(s)
    ensures Nat(s) < Pow10(|s|)
  {
    if s == "" {
    } else {
      NatBound(s[..|s| - 1]);
    }
  }

  /** For three digits, string order against "100" is numeric order. */
  lemma ThreeDigitsAgainst100(s: string)
    requires AllDigits(s) && |s| == 3
    ensures Less("100", s) <==> Nat(s) > 100
    ensures s == "100" <==> Nat(s) == 100
  {
    var a, b, c := Digit(s[0]), Digit(s[1]), Digit(s[2]);
    assert s[..2][..1][..0] == "" && s[..2][..1] == [s[0]] && s[..2][1] == s[1];
    assert Nat(s[..2]) == 10 * Nat(s[..2][..1]) + b;
    assert Nat(s[..2][..1]) == 10 * Nat(s[..2][..1][..0]) + a;
    assert Nat(s) == 100 * a + 10 * b + c;
    assert "100"[1..] == "00" && "00"[1..] == "0" && "0"[1..] == "";
    assert s[1..][0] == s[1] && s[1..][1..][0] == s[2] && s[1..][1..][1..] == "";
    assert Less("100", s) <==> '1' < s[0] || ('1' == s[0] && Less("00", s[1..]));
    assert Less("00", s[1..]) <==> '0' < s[1] || ('0' == s[1] && Less("0", s[1..][1..]));
    assert Less("0", s[1..][1..]) <==> '0' < s[2] || ('0' == s[2] && Less("", s[1..][1..][1..]));
    if Nat(s) == 100 {
      assert s[0] == '1' && s[1] == '0' && s[2] == '0';
      assert s == "100";
    }
  }

  lemma ShortIsSmall(s: string)
    requires AllDigits(s) && |s| <= 2
    ensures Nat(s) < 100
  {
    NatBound(s);
    assert Pow10(0) == 1 && Pow10(1) == 10 && Pow10(2) == 100;
  }

  lemma PowSix()
    ensures Pow10(6) == 1_000_000
  {
    assert Pow10(3) == 1000;
  }

  /** The padded fraction, read as an integer, is the fraction in millionths. */
  lemma PaddedFraction(fp: string)
    requires AllDigits(fp) && |fp| <= 6
    ensures AllDigits(fp + Zeros(6 - |fp|)) && |fp + Zeros(6 - |fp|)| == 6
    ensures Nat(fp + Zeros(6 - |fp|)) == Nat(fp) * Pow10(6 - |fp|) < 1_000_000
  {
    NatZeros(6 - |fp|);
    NatSplit(fp, Zeros(6 - |fp|));
    NatBound(fp + Zeros(6 - |fp|));
    PowSix();
  }

  lemma PaddedZero(s: string)
    requires AllDigits(s) && |s| == 6
    ensures s == "000000" <==> Nat(s) == 0
  {
    NatZeros(6);
    assert Zeros(6) == "000000";
    if Nat(s) == 0 {
      SameNatSameDigits(s, "000000");
    }
  }

  lemma {:induction false} SameNatSameDigits(a: string, b: string)
    requires AllDigits(a) && AllDigits(b) && |a| == |b| && Nat(a) == Nat(b)
    ensures a == b
  {
    if a == "" {
    } else {
      SameNatSameDigits(a[..|a| - 1], b[..|b| - 1]);
      assert a == a[..|a| - 1] + [a[|a| - 1]];
      assert b == b[..|b| - 1] + [b[|b| - 1]];
    }
  }

  /** A number has one spelling without a leading zero. */
  lemma NoLeadingZeroUnique(a: string, b: string)
    requires AllDigits(a) && AllDigits(b) && Nat(a) == Nat(b)
    requires a == "" || a[0] != '0'
    requires b == "" || b[0] != '0'
    ensures a == b
  {
    LengthFromNat(a);
    LengthFromNat(b);
    if |a| < |b| {
      PowMonotone(|a|, |b| - 1);
    } else if |b| < |a| {
      PowMonotone(|b|, |a| - 1);
    } else {
      SameNatSameDigits(a, b);
    }
  }

  lemma {:induction false} PowMonotone(m: nat, n: nat)
    requires m <= n
    ensures Pow10(m) <= Pow10(n)
  {
    if m == n {
    } else {
      PowMonotone(m, n - 1);
    }
  }

  lemma {:induction false} LengthFromNat(s: string)
    requires AllDigits(s) && (s == "" || s[0] != '0')
    ensures Nat(s) < Pow10(|s|)
    ensures s != "" ==> Pow10(|s| - 1) <= Nat(s)
  {
    if |s| == 1 {
      assert s[..0] == "";
    } else if |s| > 1 {
      LengthFromNat(s[..|s| - 1]);
    }
  }

  /** How the result is laid out, for accepted inputs. */
  lemma NormalForm(s: string)
    requires NormalizeFrequency(s).Ok?
    ensures var t := TrimSpace(s); var (ip, fp) := Cut(t);
      && Decimal(t, ip, fp) && Millionths(ip, fp) <= LIMIT
      && Denotes(NormalizeFrequency(s).value, Millionths(ip, fp))
      && NormalizeFrequency(s).value ==
        (if StripZeros(ip) == "" then "0" else StripZeros(ip)) + "." + (fp + Zeros(6 - |fp|))
  {
    var t := TrimSpace(s);
    var (ip, fp) := Cut(t);
    CutRejoins(t);
    assert Decimal(t, ip, fp);
    InRange(ip, fp);
    StripZerosKeepsNat(ip);
    PaddedFraction(fp);
    var head := if StripZeros(ip) == "" then "0" else StripZeros(ip);
    assert Nat("0") == 0 by { assert "0"[..0] == ""; }
    var r := NormalizeFrequency(s).value;
    var frac := fp + Zeros(6 - |fp|);
    assert r == head + "." + frac;
    assert Trimmed(r) by {
      assert IsDigit(r[0]) by { assert r[0] == head[0]; }
      assert IsDigit(r[|r| - 1]) by { assert r[|r| - 1] == frac[5]; }
    }
    TrimmedFixed(r);
    assert Decimal(r, head, frac);
    assert Pow10(0) == 1;
    assert Millionths(head, frac) == Millionths(ip, fp);
  }

  /** The code's range test is the numeric one. */
  lemma InRange(ip: string, fp: string)
    requires 1 <= |ip| <= 3 && AllDigits(ip) && |fp| <= 6 && AllDigits(fp)
    ensures Millionths(ip, fp) <= LIMIT <==>
      !((|ip| == 3 && Less("100", ip)) || (ip == "100" && fp + Zeros(6 - |fp|) != "000000"))
  {
    PaddedFraction(fp);
    PaddedZero(fp + Zeros(6 - |fp|));
    if |ip| == 3 {
      ThreeDigitsAgainst100(ip);
    } else {
      ShortIsSmall(ip);
    }
  }

  /** Accepted inputs are exactly the decimals of that shape with value at most 100. */
  lemma AcceptsExactly(s: string)
    ensures NormalizeFrequency(s).Ok? <==> exists v: nat :: Denotes(s, v) && v <= LIMIT
  {
    var t := TrimSpace(s);
    if NormalizeFrequency(s).Ok? {
      NormalForm(s);
      var (ip, fp) := Cut(t);
      assert Denotes(s, Millionths(ip, fp));
    }
    if v: nat :| Denotes(s, v) && v <= LIMIT {
      var ip, fp :| Decimal(t, ip, fp) && Millionths(ip, fp) == v;
      CutDecimal(ip, fp);
      assert Cut(t) == (ip, fp);
      InRange(ip, fp);
    }
  }

  lemma DenotesOne(s: string, v: nat, w: nat)
    requires Denotes(s, v) && Denotes(s, w)
    ensures v == w
  {
    var t := TrimSpace(s);
    var ip, fp :| Decimal(t, ip, fp) && Millionths(ip, fp) == v;
    var iq, fq :| Decimal(t, iq, fq) && Millionths(iq, fq) == w;
    CutDecimal(ip, fp);
    CutDecimal(iq, fq);
  }

  lemma KeepsValue(s: string, v: nat)
    requires NormalizeFrequency(s).Ok? && Denotes(s, v)
    ensures Denotes(NormalizeFrequency(s).value, v)
  {
    NormalForm(s);
    var (ip, fp) := Cut(TrimSpace(s));
    assert Denotes(s, Millionths(ip, fp));
    DenotesOne(s, v, Millionths(ip, fp));
  }

  lemma SameValueSameLayout(ip: string, fp: string, iq: string, fq: string)
    requires AllDigits(ip) && AllDigits(fp) && |fp| <= 6
    requires AllDigits(iq) && AllDigits(fq) && |fq| <= 6
    requires Millionths(ip, fp) == Millionths(iq, fq)
    ensures StripZeros(ip) == StripZeros(iq)
    ensures fp + Zeros(6 - |fp|) == fq + Zeros(6 - |fq|)
  {
    PaddedFraction(fp);
    PaddedFraction(fq);
    StripZerosKeepsNat(ip);
    StripZerosKeepsNat(iq);
    NoLeadingZeroUnique(StripZeros(ip), StripZeros(iq));
    SameNatSameDigits(fp + Zeros(6 - |fp|), fq + Zeros(6 - |fq|));
  }

  /** Two accepted inputs normalize alike exactly when they denote the same value. */
  lemma SameStringIffSameValue(s: string, u: string, v: nat, w: nat)
    requires NormalizeFrequency(s).Ok? && NormalizeFrequency(u).Ok?
    requires Denotes(s, v) && Denotes(u, w)
    ensures NormalizeFrequency(s) == NormalizeFrequency(u) <==> v == w
  {
    if NormalizeFrequency(s) == NormalizeFrequency(u) {
      KeepsValue(s, v);
      KeepsValue(u, w);
      DenotesOne(NormalizeFrequency(s).value, v, w);
    }
    if v == w {
      NormalForm(s);
      NormalForm(u);
      var (ip, fp) := Cut(TrimSpace(s));
      var (iq, fq) := Cut(TrimSpace(u));
      assert Denotes(s, Millionths(ip, fp)) && Denotes(u, Millionths(iq, fq));
      DenotesOne(s, v, Millionths(ip, fp));
      DenotesOne(u, w, Millionths(iq, fq));
      SameValueSameLayout(ip, fp, iq, fq);
    }
  }

  lemma Idempotent(s: string)
    requires NormalizeFrequency(s).Ok?
    ensures NormalizeFrequency(NormalizeFrequency(s).value) == NormalizeFrequency(s)
  {
    NormalForm(s);
    var (ip, fp) := Cut(TrimSpace(s));
    var v, r := Millionths(ip, fp), NormalizeFrequency(s).value;
    assert Denotes(s, v);
    AcceptsExactly(r);
    SameStringIffSameValue(s, r, v, v);
  }
}
