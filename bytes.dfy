/** Byte buffers as Node's `Buffer` exposes them to the handlers: tails and the `%PDF` signature. */
module Bytes {

  newtype byte = x: int | 0 <= x < 256

  /** `buf.length > n ? buf.slice(-n) : buf`: the last `n` bytes, or all of them when there are fewer. */
  function Tail(b: seq<byte>, n: nat): (r: seq<byte>)
    ensures |r| == (if |b| <= n then |b| else n)
    ensures r == b[|b| - |r|..]
  {
    if |b| > n then b[|b| - n..] else b
  }

  /** A tail keeps every byte of a buffer that fits. */
  lemma TailOfShort(b: seq<byte>, n: nat)
    requires |b| <= n
    ensures Tail(b, n) == b
  {
  }

  /**
   * The tail of a stream that keeps growing can be computed from the tail
   * of what came before and the new chunk: a buffer bounded at `n` bytes
   * reports the same tail as the unbounded buffer the handlers keep.
   */
  lemma TailOfAppend(b: seq<byte>, c: seq<byte>, n: nat)
    ensures Tail(b + c, n) == Tail(Tail(b, n) + c, n)
  {
    var t := Tail(b, n);
    var x := Tail(b + c, n);
    var y := Tail(t + c, n);
    assert |x| == |y|;
    forall i | 0 <= i < |x| ensures x[i] == y[i] {
      var k := |b + c| - |x| + i;
      if k >= |b| {
        assert x[i] == c[k - |b|];
        assert y[i] == (t + c)[|t| + (k - |b|)];
      } else {
        assert x[i] == b[k];
        assert y[i] == (t + c)[k - (|b| - |t|)];
      }
    }
  }

  /** `buf.toString('ascii')`: Node clears the high bit of every byte before decoding. */
  function AsciiText(b: seq<byte>): (r: string)
    ensures |r| == |b|
    ensures forall i :: 0 <= i < |b| ==> r[i] as int == b[i] as int % 128
  {
    seq(|b|, i requires 0 <= i < |b| => (b[i] as int % 128) as char)
  }

  /** `buf.slice(0, 4).toString('ascii') === '%PDF'`. */
  predicate HasPdfMagic(b: seq<byte>) {
    AsciiText(b[..if |b| < 4 then |b| else 4]) == "%PDF"
  }

  /** The signature test accepts exactly the buffers whose first four bytes read `%PDF` once the high bit is cleared. */
  lemma PdfMagicBytes(b: seq<byte>)
    ensures HasPdfMagic(b) <==>
      |b| >= 4 && b[0] as int % 128 == 37 && b[1] as int % 128 == 80
      && b[2] as int % 128 == 68 && b[3] as int % 128 == 70
  {
    var head := b[..if |b| < 4 then |b| else 4];
    var t := AsciiText(head);
    if |b| >= 4 && b[0] as int % 128 == 37 && b[1] as int % 128 == 80
      && b[2] as int % 128 == 68 && b[3] as int % 128 == 70 {
      assert t[0] == '%' && t[1] == 'P' && t[2] == 'D' && t[3] == 'F';
      assert t == "%PDF";
    }
    if HasPdfMagic(b) {
      assert |t| == 4;
      assert t[0] == '%' && t[1] == 'P' && t[2] == 'D' && t[3] == 'F';
    }
  }

  /** The signature test passes any buffer that starts with the bytes of `%PDF`. */
  lemma PdfHeaderPasses(rest: seq<byte>)
    ensures HasPdfMagic([37, 80, 68, 70] + rest)
  {
    PdfMagicBytes([37, 80, 68, 70] + rest);
  }

  /** Because of the cleared high bit, bytes 0xA5 0xD0 0xC4 0xC6 pass the signature test too. */
  lemma HighBitHeaderPasses()
    ensures HasPdfMagic([0xA5, 0xD0, 0xC4, 0xC6])
  {
    PdfMagicBytes([0xA5, 0xD0, 0xC4, 0xC6]);
  }
}
