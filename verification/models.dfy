/**
 * API/app/models.py: the request validator of DadosECG and the Detector
 * autoencoder, a fixed chain of six dense layers 141 -> 32 -> 16 -> 8 -> 16 -> 32 -> 141.
 * Weights are parameters (they come from a weights file); the logistic
 * sigmoid is a parameter too, constrained only by its range (0, 1).
 */
module Models {
  import opened Results

  // ---------------------------------------------------------------------------
  // DadosECG.validar_batimentos
  // ---------------------------------------------------------------------------

  /** Number of samples in one heartbeat trace. */
  const TraceLength: nat := 141

  /** The two ways a trace is rejected; the emptiness check runs first. */
  datatype BeatsError = EmptyBeats | WrongLength
  {
    /** The message carried by the ValueError the source raises. */
    function Message(): string
    {
      match this
      case EmptyBeats => "A lista de batimentos não pode estar vazia."
      case WrongLength => "A lista de batimentos deve conter exatamente 141 valores."
    }
  }

  /** None when the trace is accepted, Some(error) when it is rejected. */
  function ValidateBeats(beats: seq<real>): (r: Option<BeatsError>)
    ensures r == Some(EmptyBeats) <==> |beats| == 0
    ensures r == Some(WrongLength) <==> |beats| != 0 && |beats| != TraceLength
    ensures r == None <==> |beats| == TraceLength
  {
    if |beats| == 0 then Some(EmptyBeats)
    else if |beats| != TraceLength then Some(WrongLength)
    else None
  }

  // ---------------------------------------------------------------------------
  // Dense layers
  // ---------------------------------------------------------------------------

  datatype Activation = Relu | Sigmoid

  /**
   * A fully connected layer: kernel[i][j] weighs input i into unit j (the
   * kernel shape is inputs x units), bias[j] is added to unit j.
   */
  datatype Dense = Dense(kernel: seq<seq<real>>, bias: seq<real>, activation: Activation)

  /** Width of the layer's output. */
  function Units(layer: Dense): nat
  {
    |layer.bias|
  }

  /** The layer's weights fit an input of width inDim. */
  predicate WellFormed(layer: Dense, inDim: nat)
  {
    |layer.kernel| == inDim &&
    forall i :: 0 <= i < |layer.kernel| ==> |layer.kernel[i]| == |layer.bias|
  }

  /** The sigmoid stands in as any function whose values lie strictly in (0, 1). */
  ghost predicate Squashing(sig: real -> real)
  {
    forall v :: 0.0 < sig(v) < 1.0
  }

  predicate NonNegative(v: seq<real>)
  {
    forall j :: 0 <= j < |v| ==> 0.0 <= v[j]
  }

  predicate InOpenUnit(v: seq<real>)
  {
    forall j :: 0 <= j < |v| ==> 0.0 < v[j] < 1.0
  }

  /** max(0, v). */
  function Rectify(v: real): (r: real)
    ensures 0.0 <= r && v <= r
    ensures r == v || r == 0.0
  {
    if v > 0.0 then v else 0.0
  }

  function Activate(a: Activation, sig: real -> real, v: real): real
  {
    match a
    case Relu => Rectify(v)
    case Sigmoid => sig(v)
  }

  /** sum over i of x[i] * kernel[i][j]: column j of the product x . kernel. */
  function Dot(x: seq<real>, kernel: seq<seq<real>>, j: nat): real
    requires |kernel| == |x|
    requires forall i :: 0 <= i < |kernel| ==> j < |kernel[i]|
  {
    if |x| == 0 then 0.0 else x[0] * kernel[0][j] + Dot(x[1..], kernel[1..], j)
  }

  /** activation(x . kernel + bias), unit by unit. */
  function ApplyDense(layer: Dense, sig: real -> real, x: seq<real>): (y: seq<real>)
    requires WellFormed(layer, |x|)
    ensures |y| == Units(layer)
    ensures layer.activation == Relu ==> NonNegative(y)
    ensures layer.activation == Sigmoid && Squashing(sig) ==> InOpenUnit(y)
  {
    seq(|layer.bias|, j requires 0 <= j < |layer.bias| =>
      Activate(layer.activation, sig, Dot(x, layer.kernel, j) + layer.bias[j]))
  }

  // ---------------------------------------------------------------------------
  // Sequential stacks of layers
  // ---------------------------------------------------------------------------

  /** Each layer accepts the width the previous one produces (the first one, inDim). */
  predicate Chained(layers: seq<Dense>, inDim: nat)
    decreases |layers|
  {
    |layers| == 0 || (WellFormed(layers[0], inDim) && Chained(layers[1..], Units(layers[0])))
  }

  /** The outputs of every layer of a stack, in order, when it is fed x. */
  function Trace(layers: seq<Dense>, sig: real -> real, x: seq<real>): (t: seq<seq<real>>)
    requires Chained(layers, |x|)
    ensures |t| == |layers|
    ensures forall k :: 0 <= k < |t| ==> |t[k]| == Units(layers[k])
    ensures forall k :: 0 <= k < |t| && layers[k].activation == Relu ==> NonNegative(t[k])
    ensures Squashing(sig) ==>
      forall k :: 0 <= k < |t| && layers[k].activation == Sigmoid ==> InOpenUnit(t[k])
    decreases |layers|
  {
    if |layers| == 0 then []
    else
      var y := ApplyDense(layers[0], sig, x);
      [y] + Trace(layers[1..], sig, y)
  }

  /** The first layer of a stack reads x, each later layer reads the output of the one before. */
  lemma {:induction false} TraceSteps(layers: seq<Dense>, sig: real -> real, x: seq<real>, k: nat)
    requires Chained(layers, |x|)
    requires k < |layers|
    ensures var input := if k == 0 then x else Trace(layers, sig, x)[k - 1];
            WellFormed(layers[k], |input|) &&
            Trace(layers, sig, x)[k] == ApplyDense(layers[k], sig, input)
    decreases k
  {
    var t := Trace(layers, sig, x);
    if k > 0 {
      var y := ApplyDense(layers[0], sig, x);
      var rest := Trace(layers[1..], sig, y);
      assert t == [y] + rest;
      assert layers[k] == layers[1..][k - 1];
      TraceSteps(layers[1..], sig, y, k - 1);
      assert t[k] == rest[k - 1];
      assert t[k - 1] == if k == 1 then y else rest[k - 2];
    }
  }

  /** A stack's output is its last layer's output (Keras Sequential). */
  function Forward(layers: seq<Dense>, sig: real -> real, x: seq<real>): seq<real>
    requires Chained(layers, |x|) && |layers| > 0
  {
    Trace(layers, sig, x)[|layers| - 1]
  }

  // ---------------------------------------------------------------------------
  // Detector
  // ---------------------------------------------------------------------------

  datatype Detector = Detector(encoder: seq<Dense>, decoder: seq<Dense>)

  const EncoderWidths: seq<nat> := [32, 16, 8]
  const EncoderActivations: seq<Activation> := [Relu, Relu, Relu]
  const DecoderWidths: seq<nat> := [16, 32, 141]
  const DecoderActivations: seq<Activation> := [Relu, Relu, Sigmoid]
  const BottleneckWidth: nat := 8

  /** Layer k has widths[k] units and activation acts[k], and reads the width of layer k - 1 (inDim for k = 0). */
  predicate Conforms(layers: seq<Dense>, inDim: nat, widths: seq<nat>, acts: seq<Activation>)
  {
    |layers| == |widths| == |acts| &&
    (forall k :: 0 <= k < |layers| ==> Units(layers[k]) == widths[k] && layers[k].activation == acts[k]) &&
    (forall k :: 0 <= k < |layers| ==> WellFormed(layers[k], if k == 0 then inDim else widths[k - 1]))
  }

  /** A stack that conforms to a list of widths is chained. */
  lemma {:induction false} ConformsChained(layers: seq<Dense>, inDim: nat, widths: seq<nat>, acts: seq<Activation>)
    requires Conforms(layers, inDim, widths, acts)
    ensures Chained(layers, inDim)
    decreases |layers|
  {
    if |layers| > 0 {
      var rest := layers[1..];
      forall k | 0 <= k < |rest|
        ensures WellFormed(rest[k], if k == 0 then widths[0] else widths[1..][k - 1])
      {
        assert rest[k] == layers[k + 1];
      }
      ConformsChained(rest, widths[0], widths[1..], acts[1..]);
    }
  }

  /** The weights fit the topology built with input shape (None, 141). */
  predicate ValidDetector(d: Detector)
  {
    Conforms(d.encoder, TraceLength, EncoderWidths, EncoderActivations) &&
    Conforms(d.decoder, BottleneckWidth, DecoderWidths, DecoderActivations)
  }

  /** encoder(x): the 8-wide bottleneck code, non-negative because of relu. */
  function Encode(d: Detector, sig: real -> real, x: seq<real>): (z: seq<real>)
    requires ValidDetector(d) && |x| == TraceLength
    ensures |z| == BottleneckWidth
    ensures NonNegative(z)
  {
    ConformsChained(d.encoder, TraceLength, EncoderWidths, EncoderActivations);
    Forward(d.encoder, sig, x)
  }

  /** decoder(z): 141 values, each strictly between 0 and 1 because of the sigmoid. */
  function Decode(d: Detector, sig: real -> real, z: seq<real>): (y: seq<real>)
    requires ValidDetector(d) && |z| == BottleneckWidth
    ensures |y| == TraceLength
    ensures Squashing(sig) ==> InOpenUnit(y)
  {
    ConformsChained(d.decoder, BottleneckWidth, DecoderWidths, DecoderActivations);
    Forward(d.decoder, sig, z)
  }

  /** Detector.call: decoder(encoder(x)), a reconstruction of the trace's width in (0, 1). */
  function Call(d: Detector, sig: real -> real, x: seq<real>): (y: seq<real>)
    requires ValidDetector(d) && |x| == TraceLength && Squashing(sig)
    ensures |y| == TraceLength
    ensures InOpenUnit(y)
  {
    Decode(d, sig, Encode(d, sig, x))
  }

  /** All six hidden vectors of one call. */
  function Activations(d: Detector, sig: real -> real, x: seq<real>): seq<seq<real>>
    requires ValidDetector(d) && |x| == TraceLength
  {
    ConformsChained(d.encoder, TraceLength, EncoderWidths, EncoderActivations);
    ConformsChained(d.decoder, BottleneckWidth, DecoderWidths, DecoderActivations);
    Trace(d.encoder, sig, x) + Trace(d.decoder, sig, Encode(d, sig, x))
  }

  /**
   * The widths run 32, 16, 8, 16, 32, 141; the five relu layers give non-negative
   * values and the sigmoid layer values in (0, 1); the last one is the call's result.
   */
  lemma DetectorLayers(d: Detector, sig: real -> real, x: seq<real>)
    requires ValidDetector(d) && |x| == TraceLength
    ensures var t := Activations(d, sig, x);
            |t| == 6 &&
            (forall k :: 0 <= k < 6 ==> |t[k]| == (EncoderWidths + DecoderWidths)[k]) &&
            (forall k :: 0 <= k < 5 ==> NonNegative(t[k])) &&
            t[2] == Encode(d, sig, x) &&
            (Squashing(sig) ==> InOpenUnit(t[5]) && t[5] == Call(d, sig, x))
  {
    ConformsChained(d.encoder, TraceLength, EncoderWidths, EncoderActivations);
    ConformsChained(d.decoder, BottleneckWidth, DecoderWidths, DecoderActivations);
    var t := Activations(d, sig, x);
    forall k | 0 <= k < 6 ensures |t[k]| == (EncoderWidths + DecoderWidths)[k] {
      if k < 3 { assert t[k] == Trace(d.encoder, sig, x)[k]; }
      else { assert t[k] == Trace(d.decoder, sig, Encode(d, sig, x))[k - 3]; }
    }
    forall k | 0 <= k < 5 ensures NonNegative(t[k]) {
      if k < 3 {
        assert t[k] == Trace(d.encoder, sig, x)[k];
        assert d.encoder[k].activation == EncoderActivations[k];
      } else {
        assert t[k] == Trace(d.decoder, sig, Encode(d, sig, x))[k - 3];
        assert d.decoder[k - 3].activation == DecoderActivations[k - 3];
      }
    }
    assert d.decoder[2].activation == Sigmoid;
  }
}
