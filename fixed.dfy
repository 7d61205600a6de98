/** The `fixed.*` library functions.

    A fixed value is a bare byte string; its declared size lives in the
    resolved fixed type, which neither body consults. */
module Fixed {
  import opened Signatures

  type Byte = bv8

  /** The resolved fixed type bound to the wildcard `A`. */
  datatype FixedSchema = FixedSchema(name: string, size: nat)

  const ToBytesFcn := LibFcn("fixed.toBytes", Sig([Param("x", WildFixed("A"))], Bytes), 20000)
  const FromBytesFcn :=
    LibFcn("fixed.fromBytes",
           Sig([Param("original", WildFixed("A")), Param("replacement", Bytes)], Wildcard("A")),
           20010)

  function Min(a: int, b: int): int
  {
    if a < b then a else b
  }

  /** `fixed.toBytes`: the fixed value's bytes, as a plain byte string. */
  function ToBytes(x: seq<Byte>): (r: seq<Byte>)
    ensures |r| == |x| && forall k :: 0 <= k < |x| ==> r[k] == x[k]
  {
    x
  }

  /** `fixed.fromBytes`: overlay `replacement` onto `original`, keeping the
      length of `original`. A shorter replacement keeps the original's tail; a
      longer one is cut at the original's length. */
  function FromBytes(original: seq<Byte>, replacement: seq<Byte>): (r: seq<Byte>)
    ensures |r| == |original|
    ensures forall k :: 0 <= k < Min(|original|, |replacement|) ==> r[k] == replacement[k]
    ensures forall k :: Min(|original|, |replacement|) <= k < |original| ==> r[k] == original[k]
  {
    var length := Min(|original|, |replacement|);
    replacement[0..length] + original[length..|original|]
  }

  /** An empty replacement leaves the original as it was. */
  lemma FromBytesEmpty(original: seq<Byte>)
    ensures FromBytes(original, []) == original
  {
  }

  /** A replacement at least as long as the original replaces it entirely. */
  lemma FromBytesLong(original: seq<Byte>, replacement: seq<Byte>)
    requires |replacement| >= |original|
    ensures FromBytes(original, replacement) == replacement[..|original|]
  {
  }

  /** Overlaying the original's own bytes gives the original back:
      fromBytes undoes toBytes. */
  lemma FromBytesOwnBytes(original: seq<Byte>)
    ensures FromBytes(original, ToBytes(original)) == original
  {
  }

  /** Overlaying the same replacement twice is the same as overlaying it once. */
  lemma FromBytesIdempotent(original: seq<Byte>, replacement: seq<Byte>)
    ensures FromBytes(FromBytes(original, replacement), replacement) == FromBytes(original, replacement)
  {
  }

  /** A later overlay wins wherever it reaches; elsewhere the earlier one stays. */
  lemma FromBytesLastWins(original: seq<Byte>, first: seq<Byte>, second: seq<Byte>)
    requires |second| >= |first|
    ensures FromBytes(FromBytes(original, first), second) == FromBytes(original, second)
  {
  }

  /** The declared return type is the wildcard bound by `original`, and the
      result keeps the original's length, so a value of fixed type `t` is
      turned into a value of the same fixed type `t`. */
  lemma FromBytesKeepsType(t: FixedSchema, original: seq<Byte>, replacement: seq<Byte>)
    requires |original| == t.size
    ensures FromBytesFcn.sig.params[0].pattern == WildFixed("A")
    ensures FromBytesFcn.sig.ret == Wildcard(FromBytesFcn.sig.params[0].pattern.typeVar)
    ensures |FromBytes(original, replacement)| == t.size
  {
  }

  /** The two fixed functions own distinct error-code bases, 10 apart. */
  lemma FixedSignatures()
    ensures |ToBytesFcn.sig.params| == 1 && ToBytesFcn.sig.params[0].pattern.WildFixed?
    ensures ToBytesFcn.sig.ret == Bytes
    ensures |FromBytesFcn.sig.params| == 2 && FromBytesFcn.sig.params[0].pattern.WildFixed?
    ensures FromBytesFcn.sig.params[1].pattern == Bytes
    ensures FromBytesFcn.errcodeBase == ToBytesFcn.errcodeBase + 10
  {
  }

  /** Four bytes overlaid with six keep the first four of the six; overlaid
      with two, they keep their own last two. */
  lemma OverlayExamples()
    ensures FromBytes([1, 2, 3, 4], [9, 8, 7, 6, 5, 4]) == [9, 8, 7, 6]
    ensures FromBytes([1, 2, 3, 4], [9, 8]) == [9, 8, 3, 4]
  {
  }
}
