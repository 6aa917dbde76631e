/**
 * The two helpers of API/app/utils.py: min-max normalisation of a trace and
 * the threshold classifier that turns a reconstruction loss into a diagnosis.
 */
module Utils {
  import opened Results

  // ---------------------------------------------------------------------------
  // Extremes of a trace (numpy's min() and max())
  // ---------------------------------------------------------------------------

  /** Smallest sample of a non-empty trace. */
  function SeqMin(s: seq<real>): (m: real)
    requires |s| > 0
    ensures forall i :: 0 <= i < |s| ==> m <= s[i]
    ensures exists i :: 0 <= i < |s| && s[i] == m
  {
    if |s| == 1 then s[0]
    else
      var rest := SeqMin(s[1..]);
      assert forall i :: 1 <= i < |s| ==> s[i] == s[1..][i - 1];
      if s[0] <= rest then s[0] else rest
  }

  /** Largest sample of a non-empty trace. */
  function SeqMax(s: seq<real>): (m: real)
    requires |s| > 0
    ensures forall i :: 0 <= i < |s| ==> s[i] <= m
    ensures exists i :: 0 <= i < |s| && s[i] == m
  {
    if |s| == 1 then s[0]
    else
      var rest := SeqMax(s[1..]);
      assert forall i :: 1 <= i < |s| ==> s[i] == s[1..][i - 1];
      if s[0] >= rest then s[0] else rest
  }

  /** Every sample of the trace has the same value. */
  predicate AllEqual(s: seq<real>)
  {
    forall i, j :: 0 <= i < |s| && 0 <= j < |s| ==> s[i] == s[j]
  }

  /** Sample i is a minimum (resp. maximum) of the trace. */
  predicate IsMinimal(s: seq<real>, i: int)
    requires 0 <= i < |s|
  {
    forall j :: 0 <= j < |s| ==> s[i] <= s[j]
  }

  predicate IsMaximal(s: seq<real>, i: int)
    requires 0 <= i < |s|
  {
    forall j :: 0 <= j < |s| ==> s[j] <= s[i]
  }

  /** The extremes coincide exactly when the trace is constant. */
  lemma ExtremesMeetIffConstant(s: seq<real>)
    requires |s| > 0
    ensures SeqMin(s) == SeqMax(s) <==> AllEqual(s)
  {
    var lo, hi := SeqMin(s), SeqMax(s);
    if lo == hi {
      forall i, j | 0 <= i < |s| && 0 <= j < |s| ensures s[i] == s[j] {
        assert lo <= s[i] <= hi && lo <= s[j] <= hi;
      }
    } else {
      var a :| 0 <= a < |s| && s[a] == lo;
      var b :| 0 <= b < |s| && s[b] == hi;
      assert s[a] != s[b];
    }
  }

  // ---------------------------------------------------------------------------
  // normalizar_dados
  // ---------------------------------------------------------------------------

  /**
   * Why a trace cannot be normalised: numpy refuses min() of an empty array,
   * and a constant trace makes max - min zero (the source then divides 0 by 0).
   */
  datatype NormError = EmptyInput | ConstantTrace

  /** (x - min) / (max - min), sample by sample. */
  function Normalize(data: seq<real>): (r: Result<seq<real>, NormError>)
    ensures r == Err(EmptyInput) <==> |data| == 0
    ensures r == Err(ConstantTrace) <==> |data| > 0 && AllEqual(data)
    ensures r.Ok? ==> |r.value| == |data|
  {
    if |data| == 0 then Err(EmptyInput)
    else
      var lo, hi := SeqMin(data), SeqMax(data);
      ExtremesMeetIffConstant(data);
      if lo == hi then Err(ConstantTrace)
      else Ok(seq(|data|, i requires 0 <= i < |data| => (data[i] - lo) / (hi - lo)))
  }

  /** Dividing by a positive number keeps (and reflects) the order. */
  lemma DivMonotone(a: real, b: real, c: real)
    requires c > 0.0
    ensures a <= b <==> a / c <= b / c
  {
    assert a / c * c == a && b / c * c == b;
    if a / c <= b / c {
      assert a / c * c <= b / c * c;
    }
  }

  /** A value in [0, c] divided by c > 0 lies in [0, 1]. */
  lemma DivUnitRange(a: real, c: real)
    requires c > 0.0 && 0.0 <= a <= c
    ensures 0.0 <= a / c <= 1.0
  {
    DivMonotone(0.0, a, c);
    DivMonotone(a, c, c);
  }

  /** Every normalised sample lies in [0, 1]. */
  lemma NormalizeInUnitRange(data: seq<real>)
    requires Normalize(data).Ok?
    ensures forall i :: 0 <= i < |data| ==> 0.0 <= Normalize(data).value[i] <= 1.0
  {
    var lo, hi := SeqMin(data), SeqMax(data);
    var out := Normalize(data).value;
    forall i | 0 <= i < |data| ensures 0.0 <= out[i] <= 1.0 {
      assert out[i] == (data[i] - lo) / (hi - lo);
      DivUnitRange(data[i] - lo, hi - lo);
    }
  }

  /** Normalisation preserves and reflects the order of samples. */
  lemma NormalizePreservesOrder(data: seq<real>, i: int, j: int)
    requires Normalize(data).Ok?
    requires 0 <= i < |data| && 0 <= j < |data|
    ensures data[i] <= data[j] <==> Normalize(data).value[i] <= Normalize(data).value[j]
  {
    var lo, hi := SeqMin(data), SeqMax(data);
    DivMonotone(data[i] - lo, data[j] - lo, hi - lo);
  }

  /** Dividing by c > 0 gives 0 only for 0 and gives 1 only for c. */
  lemma DivFixedPoints(a: real, c: real)
    requires c > 0.0
    ensures a / c == 0.0 <==> a == 0.0
    ensures a / c == 1.0 <==> a == c
  {
    assert a / c * c == a;
  }

  /** A sample maps to 0 exactly when it is a minimum, and to 1 exactly when it is a maximum. */
  lemma NormalizeExtremes(data: seq<real>, i: int)
    requires Normalize(data).Ok?
    requires 0 <= i < |data|
    ensures Normalize(data).value[i] == 0.0 <==> IsMinimal(data, i)
    ensures Normalize(data).value[i] == 1.0 <==> IsMaximal(data, i)
  {
    var lo, hi := SeqMin(data), SeqMax(data);
    assert Normalize(data).value[i] == (data[i] - lo) / (hi - lo);
    DivFixedPoints(data[i] - lo, hi - lo);
    var a :| 0 <= a < |data| && data[a] == lo;
    var b :| 0 <= b < |data| && data[b] == hi;
    assert IsMinimal(data, i) ==> data[i] <= data[a];
    assert IsMaximal(data, i) ==> data[b] <= data[i];
  }

  // ---------------------------------------------------------------------------
  // calcular_diagnostico
  // ---------------------------------------------------------------------------

  /** Diagnosis labels, as the API spells them. */
  datatype Diagnosis = Normal | Suspicious | Abnormal
  {
    function Text(): string
    {
      match this
      case Normal => "normal"
      case Suspicious => "suspeito"
      case Abnormal => "anormal"
    }

    /** Severity rank: normal < suspeito < anormal. */
    function Severity(): nat
    {
      match this
      case Normal => 0
      case Suspicious => 1
      case Abnormal => 2
    }
  }

  /** Risk levels, as the API spells them. */
  datatype RiskLevel = Low | Medium | High
  {
    function Text(): string
    {
      match this
      case Low => "baixo"
      case Medium => "médio"
      case High => "alto"
    }
  }

  /** The only label/risk combinations the classifier may produce. */
  predicate Paired(d: Diagnosis, r: RiskLevel)
  {
    (d == Normal && r == Low) || (d == Suspicious && r == Medium) || (d == Abnormal && r == High)
  }

  const SuspiciousThreshold: real := 0.3
  const AbnormalThreshold: real := 0.4

  /** First matching threshold wins: below 0.3 normal, below 0.4 suspicious, otherwise abnormal. */
  function Diagnose(loss: real): (r: (Diagnosis, RiskLevel))
    ensures r.0 == Normal <==> loss < 0.3
    ensures r.0 == Suspicious <==> 0.3 <= loss < 0.4
    ensures r.0 == Abnormal <==> 0.4 <= loss
    ensures Paired(r.0, r.1)
  {
    if loss < SuspiciousThreshold then (Normal, Low)
    else if loss < AbnormalThreshold then (Suspicious, Medium)
    else (Abnormal, High)
  }

  /** A larger loss never yields a less severe diagnosis. */
  lemma DiagnoseMonotone(p: real, q: real)
    requires p <= q
    ensures Diagnose(p).0.Severity() <= Diagnose(q).0.Severity()
  {
  }

  /** The strings the API returns for each band. */
  lemma DiagnoseTexts(loss: real)
    ensures loss < 0.3 ==> Diagnose(loss).0.Text() == "normal" && Diagnose(loss).1.Text() == "baixo"
    ensures 0.3 <= loss < 0.4 ==> Diagnose(loss).0.Text() == "suspeito" && Diagnose(loss).1.Text() == "médio"
    ensures 0.4 <= loss ==> Diagnose(loss).0.Text() == "anormal" && Diagnose(loss).1.Text() == "alto"
  {
  }
}
