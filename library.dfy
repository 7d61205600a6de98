/** Error-code blocks of the modelled library functions.

    Each function owns the codes `errcodeBase + offset` for small offsets; when
    the blocks of codes do not overlap, an emitted code names both the function
    and the failed condition. */
module Library {
  import opened Signatures
  import Enum
  import Fixed
  import Neural

  /** The library functions modelled here, in registration order. */
  const Modelled: seq<LibFcn> :=
    [Enum.ToStringFcn, Enum.ToIntFcn, Enum.NumSymbolsFcn,
     Fixed.ToBytesFcn, Fixed.FromBytesFcn, Neural.SimpleLayersFcn]

  /** The blocks `[base, base + width)` of distinct functions do not overlap. */
  predicate DisjointBlocks(fs: seq<LibFcn>, width: int)
  {
    width > 0 &&
    forall i, j :: 0 <= i < j < |fs| ==>
      fs[i].errcodeBase + width <= fs[j].errcodeBase || fs[j].errcodeBase + width <= fs[i].errcodeBase
  }

  /** Function names are pairwise distinct. */
  predicate DistinctNames(fs: seq<LibFcn>)
  {
    forall i, j :: 0 <= i < j < |fs| ==> fs[i].name != fs[j].name
  }

  /** In disjoint blocks, a code `base + offset` with an offset inside the
      block determines the function and the offset. */
  lemma CodeIdentifiesFunction(fs: seq<LibFcn>, width: int, i: nat, oi: int, j: nat, oj: int)
    requires DisjointBlocks(fs, width)
    requires i < |fs| && j < |fs|
    requires 0 <= oi < width && 0 <= oj < width
    requires fs[i].errcodeBase + oi == fs[j].errcodeBase + oj
    ensures i == j && oi == oj
  {
  }

  /** The modelled functions have distinct names and disjoint blocks of ten
      codes, and the two fault codes `simpleLayers` emits lie inside its block. */
  lemma ModelledRegistry()
    ensures DistinctNames(Modelled)
    ensures DisjointBlocks(Modelled, 10)
    ensures 0 <= Neural.NoLayers < 10 && 0 <= Neural.Misaligned < 10
    ensures Neural.NoLayers != Neural.Misaligned
  {
  }
}
