/** The `model.neural.simpleLayers` library function: a feed-forward network
    given as a list of layers, each with a weight matrix and a bias vector.

    Arithmetic is idealised real arithmetic; the activation is the function
    value passed by the caller, applied elementwise after every layer except
    the last. */
module Neural {
  import opened Signatures

  /** One layer of the model: the two fields the body reads from each record
      matched by the `M` wildcard. */
  datatype Layer = Layer(weights: seq<seq<real>>, bias: seq<real>)

  /** Result of the body: a vector, or a runtime fault with its error code. */
  datatype Outcome = Ok(value: seq<real>) | Fault(code: int)

  const ErrcodeBase := 11000
  /** Offset of the fault raised for an empty model. */
  const NoLayers := 0
  /** Offset of the fault raised when weights, bias and datum do not line up. */
  const Misaligned := 1

  const SimpleLayersFcn :=
    LibFcn("model.neural.simpleLayers",
           Sig([Param("datum", Array(Double)),
                Param("model", Array(WildRecord("M", [Field("weights", Array(Array(Double))),
                                                      Field("bias", Array(Double))]))),
                Param("activation", Fcn([Double], Double))],
               Array(Double)),
           ErrcodeBase)

  /** Sum of `row[i] * b[i]` over the indices of `row`, added left to right. */
  function Dot(row: seq<real>, b: seq<real>): real
    requires |row| <= |b|
  {
    if row == [] then 0.0 else Dot(row[..|row| - 1], b) + row[|row| - 1] * b[|row| - 1]
  }

  /** `matrix_vector_mult`: one entry per row of `a`, the row's dot product with
      the leading entries of `b`. A row longer than `b` would index past its end,
      so no such row may be passed. */
  function MatrixVectorMult(a: seq<seq<real>>, b: seq<real>): (r: seq<real>)
    requires forall k :: 0 <= k < |a| ==> |a[k]| <= |b|
    ensures |r| == |a|
    ensures forall k :: 0 <= k < |a| ==> r[k] == Dot(a[k], b)
  {
    if a == [] then [] else [Dot(a[0], b)] + MatrixVectorMult(a[1..], b)
  }

  /** `[sum(y) for y in zip(u, v)]`: elementwise sum, as long as the shorter. */
  function AddVec(u: seq<real>, v: seq<real>): (r: seq<real>)
    ensures |r| == if |u| < |v| then |u| else |v|
    ensures forall k :: 0 <= k < |r| ==> r[k] == u[k] + v[k]
  {
    seq(if |u| < |v| then |u| else |v|, k requires 0 <= k < |u| && k < |v| => u[k] + v[k])
  }

  /** The activation applied to every entry. */
  function Activate(activation: real -> real, v: seq<real>): (r: seq<real>)
    ensures |r| == |v|
    ensures forall k :: 0 <= k < |v| ==> r[k] == activation(v[k])
  {
    seq(|v|, k requires 0 <= k < |v| => activation(v[k]))
  }

  /** The check made before a layer is applied to a datum of length `n`: as many
      biases as weight rows, and every row as long as the datum. */
  predicate Aligned(layer: Layer, n: int)
  {
    |layer.bias| == |layer.weights| && forall k :: 0 <= k < |layer.weights| ==> |layer.weights[k]| == n
  }

  /** `W * datum + bias` for an aligned layer. */
  function Affine(layer: Layer, datum: seq<real>): seq<real>
    requires Aligned(layer, |datum|)
  {
    AddVec(MatrixVectorMult(layer.weights, datum), layer.bias)
  }

  /** An aligned layer maps a datum to a vector of one entry per bias: row `k`
      dotted with the datum, plus bias `k`. */
  lemma {:induction false} AffineAt(layer: Layer, datum: seq<real>)
    requires Aligned(layer, |datum|)
    ensures |Affine(layer, datum)| == |layer.bias|
    ensures forall k :: 0 <= k < |layer.bias| ==>
              Affine(layer, datum)[k] == Dot(layer.weights[k], datum) + layer.bias[k]
  {
  }

  /** The datum after passing through the intermediate layers `xs` in order,
      with the activation after each; the first misaligned layer stops it. */
  function Propagate(datum: seq<real>, xs: seq<Layer>, activation: real -> real): Outcome
  {
    if xs == [] then Ok(datum)
    else
      var layer := xs[|xs| - 1];
      match Propagate(datum, xs[..|xs| - 1], activation)
      case Fault(c) => Fault(c)
      case Ok(d) =>
        if Aligned(layer, |d|) then Ok(Activate(activation, Affine(layer, d)))
        else Fault(ErrcodeBase + Misaligned)
  }

  /** The vectors handed to the activation while propagating through `xs`, one
      per layer that was applied, in layer order. */
  function Calls(datum: seq<real>, xs: seq<Layer>, activation: real -> real): seq<seq<real>>
  {
    if xs == [] then []
    else
      var layer := xs[|xs| - 1];
      var before := Calls(datum, xs[..|xs| - 1], activation);
      match Propagate(datum, xs[..|xs| - 1], activation)
      case Fault(_) => before
      case Ok(d) => if Aligned(layer, |d|) then before + [Affine(layer, d)] else before
  }

  /** The last layer: checked like the others, applied without the activation. */
  function Final(layer: Layer, datum: seq<real>): Outcome
  {
    if Aligned(layer, |datum|) then Ok(Affine(layer, datum)) else Fault(ErrcodeBase + Misaligned)
  }

  /** What `simpleLayers` returns for this datum, model and activation. */
  function SimpleLayersSpec(datum: seq<real>, model: seq<Layer>, activation: real -> real): Outcome
  {
    if |model| == 0 then Fault(ErrcodeBase + NoLayers)
    else
      match Propagate(datum, model[..|model| - 1], activation)
      case Fault(c) => Fault(c)
      case Ok(d) => Final(model[|model| - 1], d)
  }

  /** The vectors `simpleLayers` hands to the activation, layer by layer. */
  function Activated(datum: seq<real>, model: seq<Layer>, activation: real -> real): seq<seq<real>>
  {
    if |model| == 0 then [] else Calls(datum, model[..|model| - 1], activation)
  }

  /** Layer `i` lined up with the datum propagated through the layers before
      it: it is applied, and its output is handed to the activation. */
  lemma {:induction false} PrefixStep(datum: seq<real>, model: seq<Layer>, i: nat, activation: real -> real)
    requires i < |model|
    requires Propagate(datum, model[..i], activation).Ok?
    requires Aligned(model[i], |Propagate(datum, model[..i], activation).value|)
    ensures var d := Propagate(datum, model[..i], activation).value;
            Propagate(datum, model[..i + 1], activation) == Ok(Activate(activation, Affine(model[i], d))) &&
            Calls(datum, model[..i + 1], activation) == Calls(datum, model[..i], activation) + [Affine(model[i], d)]
  {
    assert model[..i + 1][..i] == model[..i];
  }

  /** Layer `i` not lined up with the datum propagated through the layers
      before it: propagation faults and the activation is not called again. */
  lemma {:induction false} PrefixStepFault(datum: seq<real>, model: seq<Layer>, i: nat, activation: real -> real)
    requires i < |model|
    requires Propagate(datum, model[..i], activation).Ok?
    requires !Aligned(model[i], |Propagate(datum, model[..i], activation).value|)
    ensures Propagate(datum, model[..i + 1], activation) == Fault(ErrcodeBase + Misaligned)
    ensures Calls(datum, model[..i + 1], activation) == Calls(datum, model[..i], activation)
  {
    assert model[..i + 1][..i] == model[..i];
  }

  /** `simpleLayers`: push `datum` through every layer of `model`, applying the
      activation after each layer but the last. Besides the outcome it returns
      the vectors the activation was applied to (elementwise), in order. */
  method SimpleLayers(datum: seq<real>, model: seq<Layer>, activation: real -> real)
    returns (r: Outcome, activated: seq<seq<real>>)
    ensures r == SimpleLayersSpec(datum, model, activation)
    ensures activated == Activated(datum, model, activation)
    ensures |model| == 0 ==> r == Fault(ErrcodeBase + NoLayers) && activated == []
    ensures |model| == 1 ==> activated == []
  {
    if |model| == 0 {
      return Fault(ErrcodeBase + NoLayers), [];
    }
    var n := |model| - 1;
    var d := datum;
    activated := [];
    var i := 0;
    while i < n
      invariant 0 <= i <= n
      invariant Propagate(datum, model[..i], activation) == Ok(d)
      invariant Calls(datum, model[..i], activation) == activated
    {
      var layer := model[i];
      if !Aligned(layer, |d|) {
        FaultAtInnerLayer(datum, model, i, activation);
        return Fault(ErrcodeBase + Misaligned), activated;
      }
      PrefixStep(datum, model, i, activation);
      var tmp := AddVec(MatrixVectorMult(layer.weights, d), layer.bias);
      d := Activate(activation, tmp);
      activated := activated + [tmp];
      i := i + 1;
    }
    assert model[..i] == model[..n];
    assert activated == Activated(datum, model, activation);
    var last := model[n];
    assert SimpleLayersSpec(datum, model, activation) == Final(last, d);
    if !Aligned(last, |d|) {
      return Fault(ErrcodeBase + Misaligned), activated;
    }
    r := Ok(AddVec(MatrixVectorMult(last.weights, d), last.bias));
    assert r == Final(last, d);
  }

  /** Once a prefix of the layers has faulted, the later layers change neither
      the outcome nor the activation calls: they are never evaluated. */
  lemma {:induction false} StopsAfterFault(datum: seq<real>, xs: seq<Layer>, k: nat, activation: real -> real)
    requires k <= |xs|
    requires Propagate(datum, xs[..k], activation).Fault?
    ensures Propagate(datum, xs, activation) == Propagate(datum, xs[..k], activation)
    ensures Calls(datum, xs, activation) == Calls(datum, xs[..k], activation)
    decreases |xs| - k
  {
    if k < |xs| {
      var init := xs[..|xs| - 1];
      assert init[..k] == xs[..k];
      StopsAfterFault(datum, init, k, activation);
    } else {
      assert xs[..k] == xs;
    }
  }

  /** Input width of layer `k`: the datum's length for the first layer, the
      previous layer's bias length after that. */
  function InWidth(n: int, model: seq<Layer>, k: int): int
    requires 0 <= k < |model|
  {
    if k == 0 then n else |model[k - 1].bias|
  }

  /** Every layer lines up with the width the layer before it produces. */
  predicate Chained(n: int, model: seq<Layer>)
  {
    forall k {:trigger InWidth(n, model, k)} :: 0 <= k < |model| ==> Aligned(model[k], InWidth(n, model, k))
  }

  lemma {:induction false} ChainedPrefix(n: int, xs: seq<Layer>, j: nat)
    requires j <= |xs|
    ensures Chained(n, xs) ==> Chained(n, xs[..j])
  {
    if Chained(n, xs) {
      forall k | 0 <= k < j ensures Aligned(xs[..j][k], InWidth(n, xs[..j], k)) {
        assert xs[..j][k] == xs[k];
        assert InWidth(n, xs[..j], k) == InWidth(n, xs, k);
      }
    }
  }

  lemma {:induction false} ChainedSnoc(n: int, xs: seq<Layer>)
    requires xs != []
    ensures Chained(n, xs) <==>
              Chained(n, xs[..|xs| - 1]) && Aligned(xs[|xs| - 1], InWidth(n, xs, |xs| - 1))
  {
    var init := xs[..|xs| - 1];
    ChainedPrefix(n, xs, |xs| - 1);
    if Chained(n, init) && Aligned(xs[|xs| - 1], InWidth(n, xs, |xs| - 1)) {
      forall k | 0 <= k < |xs| ensures Aligned(xs[k], InWidth(n, xs, k)) {
        if k < |xs| - 1 {
          assert init[k] == xs[k];
          assert InWidth(n, init, k) == InWidth(n, xs, k);
        }
      }
    }
  }

  /** Propagation through intermediate layers succeeds exactly when the layers
      are chained; the datum it produces is as wide as the last layer's bias
      (the original datum when there are no layers); its only fault is the
      misalignment fault. */
  lemma {:induction false} PropagateShape(datum: seq<real>, xs: seq<Layer>, activation: real -> real)
    ensures Propagate(datum, xs, activation).Ok? <==> Chained(|datum|, xs)
    ensures Propagate(datum, xs, activation).Ok? ==>
              |Propagate(datum, xs, activation).value| == if xs == [] then |datum| else |xs[|xs| - 1].bias|
    ensures Propagate(datum, xs, activation).Fault? ==>
              Propagate(datum, xs, activation).code == ErrcodeBase + Misaligned
  {
    if xs != [] {
      var init := xs[..|xs| - 1];
      PropagateShape(datum, init, activation);
      ChainedSnoc(|datum|, xs);
      if init != [] {
        assert InWidth(|datum|, xs, |xs| - 1) == |init[|init| - 1].bias|;
      }
      match Propagate(datum, init, activation)
      case Fault(_) =>
      case Ok(d) =>
        if Aligned(xs[|xs| - 1], |d|) {
          AffineAt(xs[|xs| - 1], d);
        }
    }
  }

  /** `simpleLayers` succeeds exactly when the model is non-empty and its layers
      are chained starting from the datum's width; an empty model is fault
      11000 and any misalignment is fault 11001; a result is as wide as the
      last layer's bias. */
  lemma {:induction false} SimpleLayersOutcome(datum: seq<real>, model: seq<Layer>, activation: real -> real)
    ensures SimpleLayersSpec(datum, model, activation).Ok? <==> |model| > 0 && Chained(|datum|, model)
    ensures SimpleLayersSpec(datum, model, activation) == Fault(ErrcodeBase + NoLayers) <==> |model| == 0
    ensures SimpleLayersSpec(datum, model, activation) == Fault(ErrcodeBase + Misaligned) <==>
              |model| > 0 && !Chained(|datum|, model)
    ensures SimpleLayersSpec(datum, model, activation).Ok? ==>
              |SimpleLayersSpec(datum, model, activation).value| == |model[|model| - 1].bias|
  {
    if |model| > 0 {
      var init := model[..|model| - 1];
      var last := model[|model| - 1];
      PropagateShape(datum, init, activation);
      ChainedSnoc(|datum|, model);
      if |model| > 1 {
        assert InWidth(|datum|, model, |model| - 1) == |init[|init| - 1].bias|;
      }
      match Propagate(datum, init, activation)
      case Fault(_) =>
      case Ok(d) =>
        if Aligned(last, |d|) {
          AffineAt(last, d);
        }
    }
  }

  /** The input of layer `k`, given the vectors `cs` handed to the activation
      by the layers before it: the datum for the first layer, the previous
      layer's activated output after that. */
  function LayerInput(datum: seq<real>, cs: seq<seq<real>>, k: nat, activation: real -> real): seq<real>
    requires k <= |cs|
  {
    if k == 0 then datum else Activate(activation, cs[k - 1])
  }

  /** `cs` holds, for each layer of `xs`, that layer applied to its input. */
  predicate LayerByLayer(datum: seq<real>, xs: seq<Layer>, cs: seq<seq<real>>, activation: real -> real)
  {
    |cs| == |xs| &&
    forall k {:trigger xs[k]} :: 0 <= k < |xs| ==>
      Aligned(xs[k], |LayerInput(datum, cs, k, activation)|) &&
      cs[k] == Affine(xs[k], LayerInput(datum, cs, k, activation))
  }

  /** The layer-by-layer relation extends by one layer when the last vector is
      the last layer applied to its input. */
  lemma {:induction false} LayerByLayerSnoc(datum: seq<real>, xs: seq<Layer>, cs: seq<seq<real>>, activation: real -> real)
    requires |xs| == |cs| > 0
    requires LayerByLayer(datum, xs[..|xs| - 1], cs[..|cs| - 1], activation)
    requires Aligned(xs[|xs| - 1], |LayerInput(datum, cs, |xs| - 1, activation)|)
    requires cs[|cs| - 1] == Affine(xs[|xs| - 1], LayerInput(datum, cs, |xs| - 1, activation))
    ensures LayerByLayer(datum, xs, cs, activation)
  {
    var xs', cs' := xs[..|xs| - 1], cs[..|cs| - 1];
    forall k | 0 <= k < |xs|
      ensures Aligned(xs[k], |LayerInput(datum, cs, k, activation)|)
      ensures cs[k] == Affine(xs[k], LayerInput(datum, cs, k, activation))
    {
      if k < |xs| - 1 {
        assert xs'[k] == xs[k];
        assert LayerInput(datum, cs, k, activation) == LayerInput(datum, cs', k, activation);
      }
    }
  }

  /** While propagation succeeds, one vector per layer is handed to the
      activation, each the layer applied to the previous layer's activated
      output, and the propagated datum is the last layer's activated output. */
  lemma {:induction false} CallsPerLayer(datum: seq<real>, xs: seq<Layer>, activation: real -> real)
    requires Propagate(datum, xs, activation).Ok?
    ensures LayerByLayer(datum, xs, Calls(datum, xs, activation), activation)
    ensures Propagate(datum, xs, activation).value == LayerInput(datum, Calls(datum, xs, activation), |xs|, activation)
  {
    if xs != [] {
      var init, last := xs[..|xs| - 1], xs[|xs| - 1];
      CallsPerLayer(datum, init, activation);
      var ci := Calls(datum, init, activation);
      var h := Propagate(datum, init, activation).value;
      var cs := Calls(datum, xs, activation);
      assert cs == ci + [Affine(last, h)];
      assert cs[..|cs| - 1] == ci;
      assert LayerInput(datum, cs, |xs| - 1, activation) == h;
      LayerByLayerSnoc(datum, xs, cs, activation);
    }
  }

  /** The activation is applied to the output of every layer except the last,
      and the result is the last layer applied, without activation, to the
      activated output of the layer before it (to the datum itself for a
      one-layer model). */
  lemma {:induction false} SimpleLayersResult(datum: seq<real>, model: seq<Layer>, activation: real -> real)
    requires SimpleLayersSpec(datum, model, activation).Ok?
    ensures |model| > 0
    ensures LayerByLayer(datum, model[..|model| - 1], Activated(datum, model, activation), activation)
    ensures Aligned(model[|model| - 1], |LayerInput(datum, Activated(datum, model, activation), |model| - 1, activation)|)
    ensures SimpleLayersSpec(datum, model, activation).value ==
              Affine(model[|model| - 1], LayerInput(datum, Activated(datum, model, activation), |model| - 1, activation))
  {
    CallsPerLayer(datum, model[..|model| - 1], activation);
  }

  /** Every layer but the last hands the activation a vector as wide as its
      bias: the activation sees every entry of every intermediate output. */
  lemma {:induction false} ActivatedWidths(datum: seq<real>, model: seq<Layer>, activation: real -> real)
    requires SimpleLayersSpec(datum, model, activation).Ok?
    ensures |Activated(datum, model, activation)| == |model| - 1
    ensures forall k :: 0 <= k < |model| - 1 ==> |Activated(datum, model, activation)[k]| == |model[k].bias|
  {
    var init := model[..|model| - 1];
    var cs := Activated(datum, model, activation);
    CallsPerLayer(datum, init, activation);
    forall k | 0 <= k < |model| - 1 ensures |cs[k]| == |model[k].bias| {
      assert init[k] == model[k];
      AffineAt(model[k], LayerInput(datum, cs, k, activation));
    }
  }

  /** Layer `k` is the first that does not line up with its input. */
  predicate FirstMisaligned(n: int, model: seq<Layer>, k: nat)
  {
    k < |model| && Chained(n, model[..k]) && !Aligned(model[k], InWidth(n, model, k))
  }

  /** Cutting the model after its first misaligned layer keeps that layer the
      first misaligned one. */
  lemma {:induction false} FirstMisalignedCut(n: int, model: seq<Layer>, k: nat)
    requires FirstMisaligned(n, model, k)
    ensures FirstMisaligned(n, model[..k + 1], k)
  {
    assert model[..k + 1][..k] == model[..k];
    assert InWidth(n, model[..k + 1], k) == InWidth(n, model, k);
  }

  /** At the first misaligned layer `k` the outcome is fault 11001 and the
      activation has seen exactly what the `k` layers before it produced. */
  lemma {:induction false} FaultAtFirstMisaligned(datum: seq<real>, model: seq<Layer>, k: nat, activation: real -> real)
    requires FirstMisaligned(|datum|, model, k)
    ensures SimpleLayersSpec(datum, model, activation) == Fault(ErrcodeBase + Misaligned)
    ensures Propagate(datum, model[..k], activation).Ok?
    ensures Activated(datum, model, activation) == Calls(datum, model[..k], activation)
  {
    MisalignedAfterPrefix(datum, model, k, activation);
    if k < |model| - 1 {
      FaultAtInnerLayer(datum, model, k, activation);
    } else {
      assert model[..|model| - 1] == model[..k];
    }
  }

  /** A misaligned intermediate layer `k` stops propagation through all the
      intermediate layers, with the activation calls of the layers before it. */
  lemma {:induction false} FaultAtInnerLayer(datum: seq<real>, model: seq<Layer>, k: nat, activation: real -> real)
    requires k < |model| - 1
    requires Propagate(datum, model[..k], activation).Ok?
    requires !Aligned(model[k], |Propagate(datum, model[..k], activation).value|)
    ensures Propagate(datum, model[..|model| - 1], activation) == Fault(ErrcodeBase + Misaligned)
    ensures SimpleLayersSpec(datum, model, activation) == Fault(ErrcodeBase + Misaligned)
    ensures Activated(datum, model, activation) == Calls(datum, model[..k], activation)
  {
    var init := model[..|model| - 1];
    PrefixStepFault(datum, model, k, activation);
    assert init[..k + 1] == model[..k + 1];
    StopsAfterFault(datum, init, k + 1, activation);
  }

  /** Before the first misaligned layer `k`, propagation succeeds, and its
      datum is what layer `k` fails to line up with. */
  lemma {:induction false} MisalignedAfterPrefix(datum: seq<real>, model: seq<Layer>, k: nat, activation: real -> real)
    requires FirstMisaligned(|datum|, model, k)
    ensures Propagate(datum, model[..k], activation).Ok?
    ensures !Aligned(model[k], |Propagate(datum, model[..k], activation).value|)
  {
    PropagateShape(datum, model[..k], activation);
    if k > 0 {
      assert model[..k][k - 1] == model[k - 1];
    }
  }

  /** A fault at the first misaligned layer `k`: the outcome is fault 11001, the
      activation has been applied to the `k` layers before it and no later, and
      the layers after `k` make no difference. */
  lemma {:induction false} FirstMisalignedLayer(datum: seq<real>, model: seq<Layer>, k: nat, activation: real -> real)
    requires FirstMisaligned(|datum|, model, k)
    ensures SimpleLayersSpec(datum, model, activation) == Fault(ErrcodeBase + Misaligned)
    ensures |Activated(datum, model, activation)| == k
    ensures SimpleLayersSpec(datum, model, activation) == SimpleLayersSpec(datum, model[..k + 1], activation)
    ensures Activated(datum, model, activation) == Activated(datum, model[..k + 1], activation)
  {
    FaultAtFirstMisaligned(datum, model, k, activation);
    FirstMisalignedCut(|datum|, model, k);
    FaultAtFirstMisaligned(datum, model[..k + 1], k, activation);
    assert model[..k + 1][..k] == model[..k];
    CallsPerLayer(datum, model[..k], activation);
  }

  /** A one-layer model never calls the activation; when the layer lines up
      with the datum the result is `W * datum + bias`. */
  lemma {:induction false} SingleLayer(datum: seq<real>, layer: Layer, activation: real -> real)
    ensures Activated(datum, [layer], activation) == []
    ensures SimpleLayersSpec(datum, [layer], activation).Ok? <==> Aligned(layer, |datum|)
    ensures Aligned(layer, |datum|) ==>
              var r := SimpleLayersSpec(datum, [layer], activation).value;
              |r| == |layer.bias| &&
              forall k :: 0 <= k < |r| ==> r[k] == Dot(layer.weights[k], datum) + layer.bias[k]
  {
    assert [layer][..0] == [];
    if Aligned(layer, |datum|) {
      AffineAt(layer, datum);
    }
  }

  /** The declared signature: a datum vector, a model whose records have at
      least `weights` and `bias`, and an activation from double to double. */
  lemma {:induction false} SimpleLayersSignature()
    ensures |SimpleLayersFcn.sig.params| == 3
    ensures SimpleLayersFcn.sig.params[0].pattern == Array(Double)
    ensures SimpleLayersFcn.sig.params[1].pattern.Array? && SimpleLayersFcn.sig.params[1].pattern.items.WildRecord?
    ensures SimpleLayersFcn.sig.params[1].pattern.items.fields ==
              [Field("weights", Array(Array(Double))), Field("bias", Array(Double))]
    ensures SimpleLayersFcn.sig.params[2].pattern == Fcn([Double], Double)
    ensures SimpleLayersFcn.sig.ret == Array(Double)
    ensures SimpleLayersFcn.errcodeBase == 11000
  {
  }
}
