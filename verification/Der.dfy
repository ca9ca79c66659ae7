/**
 DER values as pki/wstep/csr.go reads and writes them: `tlv`, and the reader of
 Go's encoding/asn1 for one element, which accepts minimal definite lengths
 only (sections 8.1.2, 8.1.3 and 10.1 of X.690).
 */
module Der {
  import opened Options

  type byte = x: int | 0 <= x < 256

  // ----- writing -----

  /** Big-endian, without leading zeros. */
  function Base256(n: nat): (r: seq<byte>)
    ensures n > 0 ==> |r| > 0 && r[0] != 0
  {
    if n == 0 then [] else Base256(n / 256) + [n % 256]
  }

  /** `0x80 | byte(k)`. */
  function LongForm(k: nat): byte {
    if k % 256 >= 0x80 then k % 256 else 0x80 + k % 256
  }

  function LengthOctets(n: nat): (r: seq<byte>)
    ensures |r| > 0
  {
    if n < 0x80 then [n] else [LongForm(|Base256(n)|)] + Base256(n)
  }

  function Tlv(tag: byte, content: seq<byte>): (r: seq<byte>)
    ensures |r| == 1 + |LengthOctets(|content|)| + |content|
  {
    [tag] + LengthOctets(|content|) + content
  }

  /** `tlv`, with its loop over the length. */
  method WriteTlv(tag: byte, content: seq<byte>) returns (out: seq<byte>)
    ensures out == Tlv(tag, content)
  {
    var n := |content|;
    out := [tag];
    if n < 0x80 {
      out := out + [n];
    } else {
      var lenBytes: seq<byte> := [];
      var v: nat := n;
      while v > 0
        invariant Base256(n) == Base256(v) + lenBytes
      {
        assert Base256(v / 256) + [v % 256] + lenBytes == Base256(v / 256) + ([v % 256] + lenBytes);
        lenBytes := [v % 256] + lenBytes;
        v := v / 256;
      }
      assert Base256(n) == lenBytes;
      out := out + [LongForm(|lenBytes|)];
      out := out + lenBytes;
      assert out == [tag] + LengthOctets(n);
    }
    out := out + content;
  }

  // ----- reading -----

  /** One element: `asn1.RawValue`. */
  datatype Value = Value(cls: int, compound: bool, tag: int, bytes: seq<byte>, full: seq<byte>)

  const MAX_INT32: int := 0x7fff_ffff

  /** A tag number of 31 and more: base 128, minimal, within 32 bits. */
  function ReadBase128(b: seq<byte>, off: nat, shifted: nat, acc: nat): (r: Option<(nat, nat)>)
    requires off <= |b|
    ensures r.Some? ==> off < r.value.1 <= |b|
    decreases |b| - off
  {
    if off == |b| || shifted == 5 || (shifted == 0 && b[off] == 0x80) then None
    else
      var v := acc * 128 + b[off] % 128;
      if b[off] < 0x80 then (if v > MAX_INT32 then None else Some((v, off + 1)))
      else ReadBase128(b, off + 1, shifted + 1, v)
  }

  /** `n` more octets of a long length whose first octets came to `acc`. */
  function ReadLong(b: seq<byte>, off: nat, n: nat, acc: nat): (r: Option<(nat, nat)>)
    requires off <= |b|
    ensures r.Some? ==> r.value.1 == off + n <= |b|
    decreases n
  {
    if n == 0 then Some((acc, off))
    else if off == |b| || acc >= 0x80_0000 || acc * 256 + b[off] == 0 then None
    else ReadLong(b, off + 1, n - 1, acc * 256 + b[off])
  }

  function ReadLength(b: seq<byte>, off: nat): (r: Option<(nat, nat)>)
    requires off <= |b|
    ensures r.Some? ==> off < r.value.1 <= |b|
  {
    if off == |b| then None
    else if b[off] < 0x80 then Some((b[off], off + 1))
    else if b[off] == 0x80 then None
    else
      var long := ReadLong(b, off + 1, b[off] - 0x80, 0);
      if long.None? || long.value.0 < 0x80 then None else long
  }

  /** The tag number and where the length begins. */
  function ReadTag(b: seq<byte>): (r: Option<(nat, nat)>)
    requires |b| > 0
    ensures r.Some? ==> 0 < r.value.1 <= |b|
    ensures r.Some? && r.value.0 < 31 ==> r == Some((b[0] % 32, 1))
  {
    if b[0] % 32 != 31 then Some((b[0] % 32, 1))
    else
      var high := ReadBase128(b, 1, 0, 0);
      if high.None? || high.value.0 < 31 then None else high
  }

  /** `asn1.Unmarshal` into a raw value: the first element and the rest. */
  function Read(b: seq<byte>): (r: Option<(Value, seq<byte>)>)
    ensures r.Some? ==> b == r.value.0.full + r.value.1 && |r.value.0.full| > 0
  {
    if b == [] then None
    else
      var tag := ReadTag(b);
      if tag.None? then None
      else
        var len := ReadLength(b, tag.value.1);
        if len.None? || len.value.1 + len.value.0 > |b| then None
        else
          var (n, at) := len.value;
          Some((Value(b[0] / 64, b[0] / 32 % 2 == 1, tag.value.0, b[at..at + n], b[..at + n]), b[at + n..]))
  }

  // ----- the writer is the exact inverse of the reader -----

  lemma {:induction false} ReadLongMeans(b: seq<byte>, off: nat, n: nat, acc: nat)
    requires off <= |b| && ReadLong(b, off, n, acc).Some?
    ensures Base256(ReadLong(b, off, n, acc).value.0) == Base256(acc) + b[off..off + n]
    decreases n
  {
    if n > 0 {
      var v := acc * 256 + b[off];
      ReadLongMeans(b, off + 1, n - 1, v);
      assert v / 256 == acc && v % 256 == b[off];
      assert Base256(v) == Base256(acc) + [b[off]];
      assert b[off..off + n] == [b[off]] + b[off + 1..off + n];
    } else {
      assert b[off..off] == [];
    }
  }

  /** An accepted length is in its one minimal form. */
  lemma {:induction false} ReadLengthMeans(b: seq<byte>, off: nat)
    requires off <= |b| && ReadLength(b, off).Some?
    ensures var (n, at) := ReadLength(b, off).value; b[off..at] == LengthOctets(n)
  {
    var (n, at) := ReadLength(b, off).value;
    if b[off] >= 0x80 {
      var k := b[off] - 0x80;
      ReadLongMeans(b, off + 1, k, 0);
      assert Base256(n) == b[off + 1..at];
      assert b[off..at] == [b[off]] + b[off + 1..at];
    }
  }

  /** Writing an accepted element again, with its own tag octet, gives its own bytes. */
  lemma {:induction false} WriteRead(b: seq<byte>)
    requires Read(b).Some? && Read(b).value.0.tag < 31
    ensures var v := Read(b).value.0;
            v.full == Tlv(b[0], v.bytes) && v.tag == b[0] % 32 && v.cls == b[0] / 64 && (v.compound <==> b[0] / 32 % 2 == 1)
  {
    var v := Read(b).value.0;
    ReadLengthMeans(b, 1);
    var (n, at) := ReadLength(b, 1).value;
    assert v.full == b[..1] + b[1..at] + b[at..at + n];
  }

  lemma {:induction false} ReadLongSplit(b: seq<byte>, off: nat, n: nat, acc: nat)
    requires off <= |b|
    ensures ReadLong(b, off, n + 1, acc) ==
            var front := ReadLong(b, off, n, acc);
            if front.None? then None else ReadLong(b, front.value.1, 1, front.value.0)
    decreases n
  {
    if n > 0 && off < |b| && acc < 0x80_0000 && acc * 256 + b[off] != 0 {
      ReadLongSplit(b, off + 1, n - 1, acc * 256 + b[off]);
    }
  }

  lemma {:induction false} ReadBack(b: seq<byte>, off: nat, n: nat)
    requires off + |Base256(n)| <= |b| && b[off..off + |Base256(n)|] == Base256(n) && n < 0x8000_0000
    ensures ReadLong(b, off, |Base256(n)|, 0) == Some((n, off + |Base256(n)|))
    decreases n
  {
    if n > 0 {
      var front := Base256(n / 256);
      var k := |front|;
      assert b[off..off + k] == b[off..off + k + 1][..k] == front;
      assert b[off + k] == b[off..off + k + 1][k] == n % 256;
      ReadBack(b, off, n / 256);
      ReadLongSplit(b, off, k, 0);
      ReadOne(b, off + k, n);
      hide ReadLong;
    }
  }

  lemma {:induction false} ReadOne(b: seq<byte>, off: nat, n: nat)
    requires off < |b| && b[off] == n % 256 && 0 < n < 0x8000_0000
    ensures ReadLong(b, off, 1, n / 256) == Some((n, off + 1))
  {
    assert n / 256 * 256 + n % 256 == n;
    assert ReadLong(b, off + 1, 0, n) == Some((n, off + 1));
  }

  lemma {:induction false} Base256Short(n: nat)
    requires n < 0x8000_0000
    ensures |Base256(n)| <= 4
  {
    assert |Base256(n / 256 / 256 / 256 / 256)| == 0;
    assert |Base256(n / 256 / 256 / 256)| <= 1;
    assert |Base256(n / 256 / 256)| <= 2;
    assert |Base256(n / 256)| <= 3;
  }

  lemma {:induction false} LengthReadBack(b: seq<byte>, n: nat)
    requires n < 0x8000_0000 && |b| > |LengthOctets(n)| && b[1..1 + |LengthOctets(n)|] == LengthOctets(n)
    ensures ReadLength(b, 1) == Some((n, 1 + |LengthOctets(n)|))
  {
    var l := LengthOctets(n);
    assert b[1] == l[0];
    if n >= 0x80 {
      Base256Short(n);
      assert b[2..2 + |Base256(n)|] == l[1..];
      ReadBack(b, 2, n);
    }
  }

  /** Reading what was written gives back the tag octet's parts and the content, up to the reader's length limit. */
  lemma {:induction false} ReadWrite(tag: byte, content: seq<byte>, rest: seq<byte>)
    requires tag % 32 != 31 && |content| < 0x8000_0000
    ensures Read(Tlv(tag, content) + rest) ==
            Some((Value(tag / 64, tag / 32 % 2 == 1, tag % 32, content, Tlv(tag, content)), rest))
  {
    var t := Tlv(tag, content);
    var b, l := t + rest, LengthOctets(|content|);
    assert b[1..1 + |l|] == l;
    LengthReadBack(b, |content|);
    hide LengthOctets;
    var at := 1 + |l|;
    assert b[at..at + |content|] == content;
    assert b[..at + |content|] == t && b[at + |content|..] == rest;
  }
}
