/**
 * The scoring half of the POST /analisar handler in API/app/routes/endpoints.py:
 * validate the trace, normalise it, clip it to [0, 1], reconstruct it with the
 * detector, take the mean absolute error and classify it.
 */
module Endpoints {
  import opened Results
  import Utils
  import opened Models

  // ---------------------------------------------------------------------------
  // np.clip(x, 0, 1)
  // ---------------------------------------------------------------------------

  predicate InUnit(v: seq<real>)
  {
    forall j :: 0 <= j < |v| ==> 0.0 <= v[j] <= 1.0
  }

  /** min(max(v, 0), 1). */
  function Clip(v: real): real
  {
    if v < 0.0 then 0.0 else if v > 1.0 then 1.0 else v
  }

  /** Clips every sample into [0, 1]: values below go to 0, values above go to 1, the rest stay. */
  function ClipAll(s: seq<real>): (r: seq<real>)
    ensures |r| == |s|
    ensures InUnit(r)
    ensures forall i :: 0 <= i < |s| && 0.0 <= s[i] <= 1.0 ==> r[i] == s[i]
    ensures forall i :: 0 <= i < |s| && s[i] < 0.0 ==> r[i] == 0.0
    ensures forall i :: 0 <= i < |s| && 1.0 < s[i] ==> r[i] == 1.0
  {
    seq(|s|, i requires 0 <= i < |s| => Clip(s[i]))
  }

  /** Clipping twice is clipping once. */
  lemma ClipIdempotent(s: seq<real>)
    ensures ClipAll(ClipAll(s)) == ClipAll(s)
  {
  }

  /** On a normalised trace the clip changes nothing. */
  lemma ClipKeepsNormalized(data: seq<real>)
    requires Utils.Normalize(data).Ok?
    ensures ClipAll(Utils.Normalize(data).value) == Utils.Normalize(data).value
  {
    Utils.NormalizeInUnitRange(data);
  }

  // ---------------------------------------------------------------------------
  // tf.keras.losses.MeanAbsoluteError
  // ---------------------------------------------------------------------------

  function Abs(v: real): real
  {
    if v < 0.0 then -v else v
  }

  /** sum over i of |a[i] - b[i]|. */
  function SumAbsDiff(a: seq<real>, b: seq<real>): (s: real)
    requires |a| == |b|
    ensures 0.0 <= s
    ensures InUnit(a) && InUnit(b) ==> s <= |a| as real
  {
    if |a| == 0 then 0.0
    else
      assert InUnit(a) ==> InUnit(a[1..]);
      assert InUnit(b) ==> InUnit(b[1..]);
      Abs(a[0] - b[0]) + SumAbsDiff(a[1..], b[1..])
  }

  /** The mean of |a[i] - b[i]|: never negative, and at most 1 when both vectors lie in [0, 1]. */
  function MeanAbsoluteError(a: seq<real>, b: seq<real>): (e: real)
    requires |a| == |b| && |a| > 0
    ensures 0.0 <= e
    ensures InUnit(a) && InUnit(b) ==> e <= 1.0
  {
    var n := |a| as real;
    var s := SumAbsDiff(a, b);
    Utils.DivMonotone(0.0, s, n);
    Utils.DivMonotone(s, n, n);
    s / n
  }

  lemma {:induction false} SumAbsDiffSymmetric(a: seq<real>, b: seq<real>)
    requires |a| == |b|
    ensures SumAbsDiff(a, b) == SumAbsDiff(b, a)
    decreases |a|
  {
    if |a| > 0 {
      SumAbsDiffSymmetric(a[1..], b[1..]);
    }
  }

  /** The error does not depend on which argument is the input and which the reconstruction. */
  lemma MaeSymmetric(a: seq<real>, b: seq<real>)
    requires |a| == |b| && |a| > 0
    ensures MeanAbsoluteError(a, b) == MeanAbsoluteError(b, a)
  {
    SumAbsDiffSymmetric(a, b);
  }

  lemma {:induction false} SumAbsDiffZero(a: seq<real>, b: seq<real>)
    requires |a| == |b|
    ensures SumAbsDiff(a, b) == 0.0 <==> a == b
    decreases |a|
  {
    if |a| > 0 {
      SumAbsDiffZero(a[1..], b[1..]);
      assert a == [a[0]] + a[1..] && b == [b[0]] + b[1..];
    }
  }

  /** The error is zero exactly for a perfect reconstruction. */
  lemma MaeZeroIffEqual(a: seq<real>, b: seq<real>)
    requires |a| == |b| && |a| > 0
    ensures MeanAbsoluteError(a, b) == 0.0 <==> a == b
  {
    SumAbsDiffZero(a, b);
    Utils.DivFixedPoints(SumAbsDiff(a, b), |a| as real);
  }

  // ---------------------------------------------------------------------------
  // analisar_ecg
  // ---------------------------------------------------------------------------

  /** The DadosECG request body. */
  datatype Request = Request(
    userId: int,
    beats: seq<real>,
    spo2: Option<real>,
    press: Option<real>,
    statusLocal: string)

  /** The JSON object returned on success. */
  datatype Response = Response(
    statusLocal: string,
    diagnosis: Utils.Diagnosis,
    riskLevel: Utils.RiskLevel,
    loss: real)

  /**
   * HttpError: the 400 raised when validation fails, carrying the validator's message.
   * DegenerateTrace: a constant trace, which has no min-max normalisation.
   */
  datatype Failure = HttpError(status: nat, detail: string) | DegenerateTrace

  const BadRequest: nat := 400

  /** The clipped, normalised trace that is fed to the detector. */
  function Prepare(beats: seq<real>): (x: seq<real>)
    requires Utils.Normalize(beats).Ok?
    ensures |x| == |beats| && InUnit(x)
    ensures x == Utils.Normalize(beats).value
  {
    ClipKeepsNormalized(beats);
    ClipAll(Utils.Normalize(beats).value)
  }

  /** validate -> normalise -> clip -> reconstruct -> score -> classify. */
  function Analyze(req: Request, d: Detector, sig: real -> real): (r: Result<Response, Failure>)
    requires ValidDetector(d) && Squashing(sig)
    ensures r.Err? && r.error.HttpError? <==> |req.beats| != TraceLength
    ensures r.Err? && r.error.HttpError? ==>
      r.error.status == BadRequest &&
      r.error.detail == (if |req.beats| == 0 then EmptyBeats.Message() else WrongLength.Message())
    ensures r == Err(DegenerateTrace) <==> |req.beats| == TraceLength && Utils.AllEqual(req.beats)
    ensures r.Ok? ==>
      var x := Prepare(req.beats);
      r.value.loss == MeanAbsoluteError(x, Call(d, sig, x)) &&
      0.0 <= r.value.loss <= 1.0 &&
      (r.value.diagnosis, r.value.riskLevel) == Utils.Diagnose(r.value.loss) &&
      r.value.statusLocal == req.statusLocal
  {
    match ValidateBeats(req.beats)
    case Some(e) => Err(HttpError(BadRequest, e.Message()))
    case None =>
      match Utils.Normalize(req.beats)
      case Err(_) => Err(DegenerateTrace)
      case Ok(_) =>
        var x := Prepare(req.beats);
        var loss := MeanAbsoluteError(x, Call(d, sig, x));
        var (diagnosis, risk) := Utils.Diagnose(loss);
        Ok(Response(req.statusLocal, diagnosis, risk, loss))
  }

  /** A rejected trace gets the same answer whatever the weights: nothing after validation ran. */
  lemma RejectionIgnoresDetector(req: Request, d1: Detector, sig1: real -> real, d2: Detector, sig2: real -> real)
    requires ValidDetector(d1) && Squashing(sig1) && ValidDetector(d2) && Squashing(sig2)
    requires |req.beats| != TraceLength
    ensures Analyze(req, d1, sig1) == Analyze(req, d2, sig2)
  {
  }
}
