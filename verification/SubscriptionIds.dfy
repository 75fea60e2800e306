/**
 Generation of subscription ids: a byte buffer filled seven bytes per draw of a 63-bit random
 number, written as a hexadecimal quantity without leading zeros.
 */
module SubscriptionIds {

  // ----- filling the buffer

  /** A draw shifted right by j bytes. */
  function Shift(draw: nat, j: nat): nat {
    if j == 0 then draw else Shift(draw, j - 1) / 256
  }

  /** Byte k of the buffer: the next byte of the draw it belongs to. */
  function ByteOf(draws: seq<nat>, k: nat): (b: nat)
    requires k / 7 < |draws|
    ensures b < 256
  {
    Shift(draws[k / 7], k % 7) % 256
  }

  /** Every byte of a buffer of any length is written exactly once, from the draws in order. */
  method FillBuffer(n: nat, draws: seq<nat>) returns (bytes: seq<nat>, ghost writes: seq<nat>)
    requires 7 * |draws| >= n
    ensures |bytes| == n && forall k :: 0 <= k < n ==> k / 7 < |draws| && bytes[k] == ByteOf(draws, k)
    ensures |writes| == n && forall k :: 0 <= k < n ==> writes[k] == 1
  {
    var id := new nat[n];
    writes := seq(n, _ => 0);
    var i := 0;
    while i < n
      invariant i % 7 == 0
      invariant |writes| == n && forall k :: 0 <= k < n ==> writes[k] == if k < i then 1 else 0
      invariant forall k :: 0 <= k < n && k < i ==> k / 7 < |draws| && id[k] == ByteOf(draws, k)
      decreases n - i
    {
      var q := i / 7;
      var val := draws[q];
      var j := 0;
      while i + j < n && j < 7
        invariant 0 <= j <= 7 && (j > 0 ==> i + j <= n)
        invariant val == Shift(draws[q], j)
        invariant |writes| == n && forall k :: 0 <= k < n ==> writes[k] == if k < i + j then 1 else 0
        invariant forall k :: 0 <= k < n && k < i + j ==> k / 7 < |draws| && id[k] == ByteOf(draws, k)
      {
        assert (i + j) / 7 == q && (i + j) % 7 == j;
        id[i + j] := val % 256;
        writes := writes[i + j := writes[i + j] + 1];
        val := val / 256;
        j := j + 1;
      }
      i := i + 7;
    }
    bytes := id[..];
  }

  // ----- the text

  function HexDigit(d: nat): char
    requires d < 16
  {
    if d < 10 then '0' + d as char else 'a' + (d - 10) as char
  }

  predicate IsHexDigit(c: char) {
    '0' <= c <= '9' || 'a' <= c <= 'f'
  }

  function DigitValue(c: char): (v: int)
    ensures IsHexDigit(c) ==> 0 <= v < 16 && HexDigit(v) == c
  {
    if '0' <= c <= '9' then c as int - '0' as int else c as int - 'a' as int + 10
  }

  ghost predicate Bytes(bs: seq<nat>) {
    forall i :: 0 <= i < |bs| ==> bs[i] < 256
  }

  ghost predicate HexText(s: string) {
    forall i :: 0 <= i < |s| ==> IsHexDigit(s[i])
  }

  function Hex(bs: seq<nat>): (s: string)
    requires forall i :: 0 <= i < |bs| ==> bs[i] < 256
    ensures |s| == 2 * |bs| && HexText(s)
  {
    if bs == [] then ""
    else
      var b := bs[|bs| - 1];
      Hex(bs[..|bs| - 1]) + [HexDigit(b / 16), HexDigit(b % 16)]
  }

  function TrimLeft(s: string): (t: string)
    ensures HexText(s) ==> HexText(t)
    ensures |t| <= |s| && (t != "" ==> t[0] != '0')
  {
    if s != "" && s[0] == '0' then TrimLeft(s[1..]) else s
  }

  function Quantity(s: string): string {
    if TrimLeft(s) == "" then "0" else TrimLeft(s)
  }

  /** The id of a byte buffer. */
  function IdText(bs: seq<nat>): string
    requires forall i :: 0 <= i < |bs| ==> bs[i] < 256
  {
    "0x" + Quantity(Hex(bs))
  }

  // ----- what the text denotes

  /** The number a buffer stands for, most significant byte first. */
  function Number(bs: seq<nat>): nat {
    if bs == [] then 0 else 256 * Number(bs[..|bs| - 1]) + bs[|bs| - 1]
  }

  /** The number a hexadecimal text denotes. */
  function HexValue(s: string): int {
    if s == "" then 0 else 16 * HexValue(s[..|s| - 1]) + DigitValue(s[|s| - 1])
  }

  lemma HexValueAppend(s: string, c: char)
    ensures HexValue(s + [c]) == 16 * HexValue(s) + DigitValue(c)
  {
    assert (s + [c])[..|s|] == s;
  }

  lemma {:induction false} HexDenotes(bs: seq<nat>)
    requires Bytes(bs)
    ensures HexValue(Hex(bs)) == Number(bs)
  {
    if bs != [] {
      var front, b := bs[..|bs| - 1], bs[|bs| - 1];
      HexDenotes(front);
      var hi, lo := HexDigit(b / 16), HexDigit(b % 16);
      HexValueAppend(Hex(front), hi);
      HexValueAppend(Hex(front) + [hi], lo);
      assert Hex(bs) == Hex(front) + [hi] + [lo];
      assert b == 16 * (b / 16) + b % 16;
    }
  }

  lemma {:induction false} LeadingZero(s: string)
    ensures HexValue("0" + s) == HexValue(s)
  {
    if s == "" {
      HexValueAppend("", '0');
    } else {
      var front, c := s[..|s| - 1], s[|s| - 1];
      LeadingZero(front);
      HexValueAppend("0" + front, c);
      assert "0" + s == ("0" + front) + [c];
    }
  }

  lemma {:induction false} TrimKeepsValue(s: string)
    ensures HexValue(TrimLeft(s)) == HexValue(s)
  {
    if s != "" && s[0] == '0' {
      TrimKeepsValue(s[1..]);
      LeadingZero(s[1..]);
      assert "0" + s[1..] == s;
    }
  }

  /**
   The id is a quantity: a prefix, at least one digit, no leading zero except for zero itself; and it
   denotes the number of the buffer.
   */
  lemma IdIsQuantity(bs: seq<nat>)
    requires Bytes(bs)
    ensures IdText(bs)[..2] == "0x" && HexText(IdText(bs)[2..])
    ensures 1 <= |IdText(bs)| - 2 && (bs != [] ==> |IdText(bs)| - 2 <= 2 * |bs|)
    ensures IdText(bs)[2] == '0' ==> IdText(bs) == "0x0"
    ensures HexValue(IdText(bs)[2..]) == Number(bs)
  {
    hide Hex, Quantity, HexValue;
    QuantityFacts(Hex(bs));
    assert IdText(bs)[2..] == Quantity(Hex(bs));
    HexDenotes(bs);
  }

  lemma QuantityFacts(s: string)
    requires HexText(s)
    ensures HexText(Quantity(s)) && 1 <= |Quantity(s)| && (s != "" ==> |Quantity(s)| <= |s|)
    ensures Quantity(s)[0] == '0' ==> Quantity(s) == "0"
    ensures HexValue(Quantity(s)) == HexValue(s)
  {
    TrimKeepsValue(s);
    if TrimLeft(s) == "" {
      HexValueAppend("", '0');
      assert "" + ['0'] == "0";
    }
  }

  /** Buffers of one length stand for different numbers. */
  lemma {:induction false} NumberInjective(a: seq<nat>, b: seq<nat>)
    requires Bytes(a) && Bytes(b) && |a| == |b| && Number(a) == Number(b)
    ensures a == b
  {
    if a != [] {
      var x, y := Number(a[..|a| - 1]), Number(b[..|b| - 1]);
      assert 256 * x + a[|a| - 1] == 256 * y + b[|b| - 1];
      assert x == y;
      NumberInjective(a[..|a| - 1], b[..|b| - 1]);
      assert a == a[..|a| - 1] + [a[|a| - 1]] && b == b[..|b| - 1] + [b[|b| - 1]];
    }
  }

  lemma {:induction false} Positive(s: string)
    requires HexText(s) && s != "" && s[0] != '0'
    ensures HexValue(s) > 0
  {
    if |s| > 1 {
      Positive(s[..|s| - 1]);
    } else {
      assert s[..0] == "";
    }
  }

  /** A number has one text without leading zeros. */
  lemma {:induction false} TextUnique(s: string, t: string)
    requires HexText(s) && HexText(t) && HexValue(s) == HexValue(t)
    requires (s != "" ==> s[0] != '0') && (t != "" ==> t[0] != '0')
    ensures s == t
  {
    if s == "" || t == "" {
      if s != "" {
        Positive(s);
      }
      if t != "" {
        Positive(t);
      }
    } else {
      var c, d := s[|s| - 1], t[|t| - 1];
      assert 16 * HexValue(s[..|s| - 1]) + DigitValue(c) == 16 * HexValue(t[..|t| - 1]) + DigitValue(d);
      TextUnique(s[..|s| - 1], t[..|t| - 1]);
      assert s == s[..|s| - 1] + [c] && t == t[..|t| - 1] + [d];
    }
  }

  /**
   Two ids are the same text exactly when their buffers stand for the same number; for buffers of one
   length, exactly when the buffers are the same.
   */
  lemma IdsEqualIff(a: seq<nat>, b: seq<nat>)
    requires Bytes(a) && Bytes(b)
    ensures IdText(a) == IdText(b) <==> Number(a) == Number(b)
    ensures |a| == |b| ==> (IdText(a) == IdText(b) <==> a == b)
  {
    IdIsQuantity(a);
    IdIsQuantity(b);
    if IdText(a) == IdText(b) {
      assert Number(a) == Number(b);
    }
    if Number(a) == Number(b) {
      TrimKeepsValue(Hex(a));
      TrimKeepsValue(Hex(b));
      HexDenotes(a);
      HexDenotes(b);
      TextUnique(TrimLeft(Hex(a)), TrimLeft(Hex(b)));
      if |a| == |b| {
        NumberInjective(a, b);
      }
    }
  }

  /** The buffer the draws give. */
  ghost predicate Filled(bs: seq<nat>, n: nat, draws: seq<nat>) {
    |bs| == n && Bytes(bs) && forall k :: 0 <= k < n ==> k / 7 < |draws| && bs[k] == ByteOf(draws, k)
  }

  /** The whole generator: fill the buffer, then write it as a quantity. */
  method NewId(n: nat, draws: seq<nat>) returns (id: string)
    requires 7 * |draws| >= n
    ensures exists bs :: Filled(bs, n, draws) && id == IdText(bs)
    ensures id[..2] == "0x" && forall bs :: Filled(bs, n, draws) ==> HexValue(id[2..]) == Number(bs)
  {
    var bs, _ := FillBuffer(n, draws);
    assert Filled(bs, n, draws);
    IdIsQuantity(bs);
    id := IdText(bs);
    assert forall bs' :: Filled(bs', n, draws) ==> bs' == bs;
  }
}
