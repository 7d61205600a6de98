# Titus library functions: enum, fixed and neural layers

A Dafny model of three groups of built-in functions of Titus, the Python
scoring engine for PFA (the Portable Format for Analytics):

- `enum.toString`, `enum.toInt`, `enum.numSymbols` (module `Enum`). An enum
  value is a bare symbol string. It is interpreted against the resolved enum
  type's ordered symbol list, as in the Enums subsection under Complex Types
  of the Apache Avro specification.
- `fixed.toBytes`, `fixed.fromBytes` (module `Fixed`). A fixed value is a
  bare byte string, here `seq<bv8>`.
- `model.neural.simpleLayers` and its helper `matrix_vector_mult` (module
  `Neural`). A vector is pushed through a list of layers. Each layer has a
  weight matrix and a bias vector. The activation is applied after every
  layer except the last.

Module `Signatures` defines the datatypes for a declared signature
(parameter and return patterns) and a registry entry (name, signature,
error-code base). Each function's entry is a constant in its own module
(`Enum.ToStringFcn`, `Fixed.FromBytesFcn`, `Neural.SimpleLayersFcn`, ...).
Module `Library` states that the modelled functions own disjoint blocks of
error codes.

The function bodies receive the types the signature resolver bound at the
call site. The enum functions read the resolved enum's symbols, so the model
passes them an `EnumSchema`. The fixed bodies never read their resolved
type, so the model passes none: `Fixed.ToBytes` and `Fixed.FromBytes` take
only byte strings, and `FixedSchema` appears only in `FromBytesKeepsType`,
which states that the result keeps the original's size. The resolver itself
is not part of this model.

`SimpleLayers` is a method with a loop over all layers but the last,
followed by a final-layer step, as in the source. It is proved equal to the
function `SimpleLayersSpec`, and the lemmas state what that function
promises. The method also returns the vectors it handed to the activation,
in order. This makes observable which layers the activation saw.

`enum.toString` and `enum.toInt` raise `AvroException` with no error code
when `x` is not a symbol (`enum.py` lines 42 and 53), so `NotInEnum` carries
no code. `fixed.fromBytes` uses `len(original)` and never reads the declared
fixed size (`fixed.py` line 46).

## Model

| member | source | states |
|---|---|---|
| `Enum.IndexOf` | titus/titus/lib/enum.py:51 | `list.index`: returns an index exactly when `x` is in the list; that index holds `x`; no earlier index holds `x` |
| `Enum.ToString` | titus/titus/lib/enum.py:38-42 | succeeds exactly when `x` is one of the enum's symbols; on success returns `x`, so never returns a non-member |
| `Enum.ToInt` | titus/titus/lib/enum.py:49-53 | fails exactly when `x` is not a symbol; otherwise returns `i` with `0 <= i` and `i` below the number of symbols, `symbols[i] == x` and no earlier symbol equal to `x` |
| `Enum.NumSymbols` | titus/titus/lib/enum.py:60-61 | the number of symbols of the resolved enum, for any value `x`; never fails |
| `Enum.ToIntNamesToString` | titus/titus/lib/enum.py:38-53 | toString and toInt fail on the same symbols; the symbol at toInt's index is what toString returns |
| `Enum.ToIntBelowNumSymbols` | titus/titus/lib/enum.py:49-61 | numSymbols does not depend on the value; every index toInt returns is below it |
| `Enum.ToIntIsPosition` | titus/titus/lib/enum.py:51 | with distinct symbols, toInt returns `i` if and only if `i` is in range and `symbols[i] == x` |
| `Enum.EnumSignatures` | titus/titus/lib/enum.py:34-59 | each enum function takes one enum-wildcard parameter; bases 19000, 19010, 19020 are 10 apart; return types String, Int, Int |
| `Enum.ColorExample` | titus/titus/lib/enum.py:49-61 | for symbols RED, GREEN, BLUE: toInt("GREEN") is 1; toInt and toString reject "PURPLE"; numSymbols is 3 |
| `Fixed.ToBytes` | titus/titus/lib/fixed.py:37-38 | returns its argument's bytes unchanged |
| `Fixed.FromBytes` | titus/titus/lib/fixed.py:45-47 | the result is as long as `original`; its first bytes, as many as the shorter of the two has, are the replacement's; the rest are the original's |
| `Fixed.FromBytesEmpty` | titus/titus/lib/fixed.py:46-47 | an empty replacement returns the original |
| `Fixed.FromBytesLong` | titus/titus/lib/fixed.py:46-47 | a replacement at least as long as the original returns the replacement's prefix of the original's length |
| `Fixed.FromBytesOwnBytes` | titus/titus/lib/fixed.py:37-47 | fromBytes of the original's own toBytes gives the original back |
| `Fixed.FromBytesIdempotent` | titus/titus/lib/fixed.py:46-47 | overlaying the same replacement twice equals overlaying it once |
| `Fixed.FromBytesLastWins` | titus/titus/lib/fixed.py:46-47 | a second overlay at least as long as the first overrides it entirely |
| `Fixed.FromBytesKeepsType` | titus/titus/lib/fixed.py:43-47 | the declared return type is the wildcard bound by `original`, and the result keeps the original's fixed size |
| `Fixed.FixedSignatures` | titus/titus/lib/fixed.py:33-44 | toBytes takes one fixed-wildcard parameter and returns bytes; fromBytes takes a fixed-wildcard parameter and then bytes; bases 20000 and 20010 are 10 apart |
| `Fixed.OverlayExamples` | titus/titus/lib/fixed.py:45-47 | 4 bytes overlaid with 6 keep the first 4 of the 6; overlaid with 2, they keep their own last 2 |
| `Neural.MatrixVectorMult` | titus/titus/lib/model/neural.py:39-40 | one entry per row of `a`, each the dot product of the row with the leading entries of `b` |
| `Neural.AddVec` | titus/titus/lib/model/neural.py:61 | `zip` then `sum`: as long as the shorter vector, entry `k` is `u[k] + v[k]` |
| `Neural.Activate` | titus/titus/lib/model/neural.py:62 | same length as the input, entry `k` is the activation of entry `k` |
| `Neural.AffineAt` | titus/titus/lib/model/neural.py:61 | an aligned layer yields one entry per bias, entry `k` being row `k` dotted with the datum plus bias `k` |
| `Neural.SimpleLayers` | titus/titus/lib/model/neural.py:52-68 | the loop and final step compute `SimpleLayersSpec` and hand the activation exactly `Activated`; an empty model is fault 11000 with no activation call; a one-layer model never calls the activation |
| `Neural.PrefixStep` | titus/titus/lib/model/neural.py:57-62 | a layer lined up with the datum so far is applied, its output goes to the activation, and the activated output becomes the next datum |
| `Neural.PrefixStepFault` | titus/titus/lib/model/neural.py:57-60 | a layer not lined up with the datum so far is fault 11001 and adds no activation call |
| `Neural.StopsAfterFault` | titus/titus/lib/model/neural.py:56-60 | once a prefix of the intermediate layers faults, later layers change neither the outcome nor the activation calls |
| `Neural.PropagateShape` | titus/titus/lib/model/neural.py:56-62 | the intermediate layers succeed if and only if they are chained from the datum's width; the datum after them is as wide as the last one's bias; their only fault is 11001 |
| `Neural.SimpleLayersOutcome` | titus/titus/lib/model/neural.py:53-68 | success if and only if the model is non-empty and chained; fault 11000 if and only if empty; fault 11001 if and only if non-empty and not chained; a result is as wide as the last bias |
| `Neural.CallsPerLayer` | titus/titus/lib/model/neural.py:56-62 | one activation batch per intermediate layer, each that layer applied to the previous layer's activated output; the datum after them is the last batch activated |
| `Neural.SimpleLayersResult` | titus/titus/lib/model/neural.py:56-68 | on success, every layer but the last fed the activation, and the result is the last layer applied without activation to the previous activated output (to the datum for one layer) |
| `Neural.ActivatedWidths` | titus/titus/lib/model/neural.py:56-62 | on success, the activation saw one vector per layer but the last, the `k`-th as wide as layer `k`'s bias |
| `Neural.FaultAtFirstMisaligned` | titus/titus/lib/model/neural.py:56-67 | at the first misaligned layer `k` the outcome is fault 11001 and the activation saw only what layers before `k` produced |
| `Neural.FaultAtInnerLayer` | titus/titus/lib/model/neural.py:56-60 | a misaligned intermediate layer makes the whole call fault 11001, with only the earlier layers' activation calls |
| `Neural.MisalignedAfterPrefix` | titus/titus/lib/model/neural.py:56-60 | the layers before the first misaligned layer succeed, and that layer does not line up with their output |
| `Neural.FirstMisalignedLayer` | titus/titus/lib/model/neural.py:56-67 | at the first misaligned layer `k`: fault 11001, `k` activation batches, and cutting off the layers after `k` changes nothing |
| `Neural.SingleLayer` | titus/titus/lib/model/neural.py:64-68 | a one-layer model never calls the activation; it succeeds if and only if the layer lines up with the datum, giving `W * datum + bias` |
| `Neural.SimpleLayersSignature` | titus/titus/lib/model/neural.py:43-51 | three parameters: datum an array of double, model an array of records with at least `weights` (array of array of double) and `bias` (array of double), activation from double to double;; returns an array of double; base 11000 |
| `Library.CodeIdentifiesFunction` | titus/titus/lib/model/neural.py:51-67 | when the functions' code blocks `[base, base + width)` do not overlap (`DisjointBlocks`), `base + offset` with an in-block offset determines the function and the offset |
| `Library.ModelledRegistry` | titus/titus/lib/enum.py:34-59 | the six modelled functions (bases at `enum.py` lines 37, 48, 59, `fixed.py` lines 36, 44 and `model/neural.py` line 51) have distinct names and disjoint blocks of ten codes; simpleLayers' offsets 0 and 1 lie inside its block |

## Left out

- Signature resolution and pattern matching (wildcards, record patterns, function patterns) are not modelled; signatures are data, and bodies receive the resolved type directly.
- The `provides` table and its `provide` registration are not modelled; `Library` only collects the six signatures to state their error-code blocks.
- `callfcn` is a call back into the interpreter; the activation is a total, pure `real -> real` function. A fault raised inside the activation is not modelled, nor is a PFA callback that reads or writes cells or pools and so answers differently on repeated calls; the order of the calls is still recorded in the `activated` output of `SimpleLayers`.
- Python floats are idealised as `real`; IEEE rounding, NaN and infinities are not modelled.
- Exception message texts are not modelled; failures carry only their code, or none for the enum functions.
- Layer records may carry fields besides `weights` and `bias`; the body reads only those two, so `Layer` holds only those two.
- `titus/titus/version.py` holds version constants with no behaviour.
- Neural.MatrixVectorMult: requires every row to be no longer than the vector; the Python helper would raise `IndexError` on a longer row, which its only caller rules out by checking alignment first.
