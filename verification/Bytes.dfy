/**
  Little-endian fields and packed structures: what `memcpy` of a packed struct and Python's
  `struct` with a "<" format both lay out.
 */
module Bytes {
  import opened Modular

  type Byte = b: nat | b < 256

  function Pow256(n: nat): (p: nat)
    ensures p > 0
  {
    if n == 0 then 1 else 256 * Pow256(n - 1)
  }

  function ToBytes(x: nat, n: nat): (bs: seq<Byte>)
    ensures |bs| == n
  {
    if n == 0 then [] else [x % 256] + ToBytes(x / 256, n - 1)
  }

  function FromBytes(bs: seq<Byte>): nat {
    if bs == [] then 0 else bs[0] + 256 * FromBytes(bs[1..])
  }

  lemma {:induction false} FromBytesRange(bs: seq<Byte>)
    ensures FromBytes(bs) < Pow256(|bs|)
    decreases |bs|
  {
    if bs != [] { FromBytesRange(bs[1..]); }
  }

  lemma {:induction false} NumberRoundTrip(x: nat, n: nat)
    ensures FromBytes(ToBytes(x, n)) == x % Pow256(n) && (x < Pow256(n) ==> FromBytes(ToBytes(x, n)) == x)
    decreases n
  {
    if n > 0 {
      NumberRoundTrip(x / 256, n - 1);
      assert ToBytes(x, n)[1..] == ToBytes(x / 256, n - 1);
      SplitMod(x, Pow256(n - 1));
    } else {
      assert x % 1 == 0;
    }
  }

  lemma SplitMod(x: nat, m: nat)
    requires m > 0
    ensures x % (256 * m) == x % 256 + 256 * (x / 256 % m) && (x < 256 * m ==> x / 256 < m)
  {
    var q, r := x / 256 / m, x / 256 % m;
    assert x / 256 == m * q + r;
    assert x == 256 * m * q + (256 * r + x % 256) by { assert 256 * (m * q) == 256 * m * q; }
    assert 0 <= 256 * r + x % 256 < 256 * m;
    RemainderIs(x, 256 * m, q, 256 * r + x % 256);
  }

  lemma {:induction false} BytesRoundTrip(bs: seq<Byte>)
    ensures ToBytes(FromBytes(bs), |bs|) == bs
    decreases |bs|
  {
    if bs != [] {
      var rest := FromBytes(bs[1..]);
      BytesRoundTrip(bs[1..]);
      SplitByte(bs[0], rest);
      hide FromBytes;
      assert bs == [bs[0]] + bs[1..];
    }
  }

  lemma SplitByte(b: Byte, rest: nat)
    ensures (b + 256 * rest) % 256 == b && (b + 256 * rest) / 256 == rest
  {
  }

  // ------------------------------------------------------- packed structs

  function Total(widths: seq<nat>): nat {
    if widths == [] then 0 else widths[0] + Total(widths[1..])
  }

  function Pack(widths: seq<nat>, values: seq<nat>): (bs: seq<Byte>)
    requires |widths| == |values|
    ensures |bs| == Total(widths)
    decreases |widths|
  {
    if widths == [] then [] else ToBytes(values[0], widths[0]) + Pack(widths[1..], values[1..])
  }

  function Unpack(widths: seq<nat>, bs: seq<Byte>): (values: seq<nat>)
    requires |bs| == Total(widths)
    ensures |values| == |widths|
    decreases |widths|
  {
    if widths == [] then [] else [FromBytes(bs[..widths[0]])] + Unpack(widths[1..], bs[widths[0]..])
  }

  /** Every field fits its width. */
  ghost predicate Fit(widths: seq<nat>, values: seq<nat>) {
    |widths| == |values| && forall i :: 0 <= i < |widths| ==> values[i] < Pow256(widths[i])
  }

  lemma {:induction false} UnpackPack(widths: seq<nat>, values: seq<nat>)
    requires Fit(widths, values)
    ensures Unpack(widths, Pack(widths, values)) == values
    decreases |widths|
  {
    if widths != [] {
      var head := ToBytes(values[0], widths[0]);
      var bs := Pack(widths, values);
      NumberRoundTrip(values[0], widths[0]);
      assert bs[..widths[0]] == head && bs[widths[0]..] == Pack(widths[1..], values[1..]);
      UnpackPack(widths[1..], values[1..]);
    }
  }

  lemma {:induction false} PackUnpack(widths: seq<nat>, bs: seq<Byte>)
    requires |bs| == Total(widths)
    ensures Fit(widths, Unpack(widths, bs)) && Pack(widths, Unpack(widths, bs)) == bs
    decreases |widths|
  {
    if widths != [] {
      var k := widths[0];
      FromBytesRange(bs[..k]);
      BytesRoundTrip(bs[..k]);
      PackUnpack(widths[1..], bs[k..]);
      hide FromBytes, ToBytes, Pow256;
      var values, rest := Unpack(widths, bs), Unpack(widths[1..], bs[k..]);
      assert values[1..] == rest;
      assert Pack(widths, values) == ToBytes(values[0], k) + Pack(widths[1..], rest) == bs[..k] + bs[k..] == bs;
      forall i | 0 <= i < |widths| ensures values[i] < Pow256(widths[i]) {
        if i > 0 { assert values[i] == rest[i - 1] && widths[i] == widths[1..][i - 1]; }
      }
    }
  }

  // ---------------------------------------------------------------- layout

  /** Little-endian: byte `i` has weight 256^i. */
  lemma {:induction false} LittleEndian(x: nat, n: nat, i: nat)
    requires i < n
    ensures ToBytes(x, n)[i] == x / Pow256(i) % 256
    decreases i
  {
    if i > 0 {
      LittleEndian(x / 256, n - 1, i - 1);
      DivTwice(x, Pow256(i - 1));
    }
  }

  lemma DivTwice(x: nat, m: nat)
    requires m > 0
    ensures x / 256 / m == x / (256 * m)
  {
    var q, r := x / 256 / m, x / 256 % m;
    assert x / 256 == m * q + r;
    assert x == 256 * (m * q) + (256 * r + x % 256);
    Reassociate(256, m, q);
    QuotientIs(x, 256 * m, q, 256 * r + x % 256);
  }

  lemma QuotientIs(x: nat, m: nat, q: nat, r: nat)
    requires m > 0 && x == m * q + r && r < m
    ensures x / m == q
  {
    RemainderIs(x, m, q, r);
    assert m * (x / m) == m * q;
  }

  lemma {:induction false} TotalOneMore(widths: seq<nat>, i: nat)
    requires i < |widths|
    ensures Total(widths[..i + 1]) == Total(widths[..i]) + widths[i]
    decreases i
  {
    if i == 0 {
      assert widths[..1] == [widths[0]] && widths[..1][1..] == [] && widths[..0] == [];
    } else {
      TotalOneMore(widths[1..], i - 1);
      assert widths[..i + 1][1..] == widths[1..][..i] && widths[..i][1..] == widths[1..][..i - 1];
    }
  }

  /** A field lies behind all the fields before it. */
  lemma {:induction false} FieldAt(widths: seq<nat>, values: seq<nat>, i: nat)
    requires |widths| == |values| > i
    ensures var at := Total(widths[..i]);
            at + widths[i] <= Total(widths) && Pack(widths, values)[at..at + widths[i]] == ToBytes(values[i], widths[i])
    decreases i
  {
    var bs := Pack(widths, values);
    if i == 0 {
      assert widths[..0] == [];
      assert bs[..widths[0]] == ToBytes(values[0], widths[0]);
    } else {
      FieldAt(widths[1..], values[1..], i - 1);
      assert widths[1..][..i - 1] == widths[..i][1..];
      var at := Total(widths[1..][..i - 1]);
      assert bs[widths[0]..] == Pack(widths[1..], values[1..]);
      assert bs[widths[0] + at..widths[0] + at + widths[i]] == bs[widths[0]..][at..at + widths[i]];
    }
  }
}
