# Easy Heart anomaly scoring, modelled in Dafny

This project models the anomaly-scoring path of the Easy Heart API, the
`POST /analisar` handler. A client sends a heartbeat trace of 141 samples
(`DadosECG.batimentos`). The handler validates its length, min-max normalises
it, clips it to [0, 1] and reconstructs it with the `Detector` autoencoder. It
takes the mean absolute error between the trace and its reconstruction as the
loss (`perda`), maps that loss to a diagnosis and risk level with two fixed
thresholds (0.3 and 0.4), and returns them.

Everything is modelled as pure functions over `real`:

- `results.dfy`, module `Results`: `Result` and `Option`, which take the place of the source's exceptions.
- `utils.dfy`, module `Utils` (`API/app/utils.py`):
  - `Normalize` (`normalizar_dados`), with `SeqMin` and `SeqMax` for numpy's `min()` and `max()`;
  - `Diagnose` (`calcular_diagnostico`), with the `Diagnosis` and `RiskLevel` datatypes. Their `Text()` gives the exact strings the API returns: "normal"/"suspeito"/"anormal" and "baixo"/"médio"/"alto".
- `models.dfy`, module `Models` (`API/app/models.py`):
  - `ValidateBeats` (`DadosECG.validar_batimentos`);
  - dense layers over `seq<seq<real>>` kernels, where the kernel has shape inputs × units as in Keras and unit j computes `activation(Σᵢ x[i]·kernel[i][j] + bias[j])`;
  - sequential stacks of layers (`Trace`, `Forward`);
  - the `Detector` with its fixed topology 141→32→16→8 (relu ×3) and 8→16→32→141 (relu, relu, sigmoid), where `Call` is `Decode(Encode(x))`.
  - The learned weights are parameters. `ValidDetector` says that they have the shapes the topology fixes once it is built with input shape `(None, 141)`.
  - The sigmoid is a parameter `sig: real -> real`. The only thing assumed about it is `Squashing(sig)`: every value lies strictly in (0, 1).
- `endpoints.dfy`, module `Endpoints` (`API/app/routes/endpoints.py`):
  - `ClipAll` (`np.clip(…, 0, 1)`);
  - `MeanAbsoluteError` (Keras' `MeanAbsoluteError` on one trace);
  - `Analyze`, the scoring steps of `analisar_ecg`: validate → normalise → clip → reconstruct → score → classify, and the response's `status_local`, `diagnostico_ia`, `nivel_risco` and `perda` fields.

The model follows the code in these details:

- The labels are the Portuguese strings the code returns, not English ones.
- The validator reports an empty list with its own message before it checks the length.

The constant-trace case is modelled as an explicit error instead of the code's NaN path.

- In the code, a trace whose 141 samples are all equal makes `max - min` zero at `API/app/utils.py:7`. numpy then yields NaN for every sample, the NaN flows through the clip and the network, and `calcular_diagnostico` falls to its `else` branch and labels the trace "anormal"/"alto".
- Real arithmetic has no NaN. So `Normalize` returns `Err(ConstantTrace)` (and `Err(EmptyInput)` for an empty list, where numpy's `min()` raises), and `Analyze` returns `Err(DegenerateTrace)` for such a trace. Its contract states that this happens exactly when the 141 samples are all equal.

## Model

| member | source | states |
|---|---|---|
| `Utils.SeqMin` | API/app/utils.py:5 | the result is one of the samples and no sample is smaller |
| `Utils.SeqMax` | API/app/utils.py:6 | the result is one of the samples and no sample is larger |
| `Utils.ExtremesMeetIffConstant` | API/app/utils.py:5-7 | min equals max exactly when all samples are equal, i.e. exactly when the divisor at line 7 is zero |
| `Utils.Normalize` | API/app/utils.py:3-7 | an empty list is refused, and so is (exactly) a constant trace; otherwise the output has the input's length |
| `Utils.NormalizeInUnitRange` | API/app/utils.py:7 | every normalised sample lies in [0, 1] |
| `Utils.NormalizePreservesOrder` | API/app/utils.py:7 | x_i ≤ x_j if and only if out_i ≤ out_j |
| `Utils.NormalizeExtremes` | API/app/utils.py:5-7 | a sample maps to 0 exactly when it is a minimum and to 1 exactly when it is a maximum |
| `Utils.Diagnose` | API/app/utils.py:9-15 | normal exactly when loss < 0.3, suspicious exactly when 0.3 ≤ loss < 0.4, abnormal exactly when loss ≥ 0.4; the risk level is always the paired one (baixo, médio, alto) |
| `Utils.DiagnoseMonotone` | API/app/utils.py:9-15 | a larger loss never gets a less severe label |
| `Utils.DiagnoseTexts` | API/app/utils.py:10-15 | the label and risk strings returned in each band are "normal"/"baixo", "suspeito"/"médio", "anormal"/"alto" |
| `Models.ValidateBeats` | API/app/models.py:13-17 | the empty list gets the "não pode estar vazia" error, any other length than 141 gets the length error, and the trace is accepted exactly when it has 141 samples |
| `Models.Rectify` | API/app/models.py:24-30 | relu: the result is non-negative, at least the input, and either the input or 0 |
| `Models.ApplyDense` | API/app/models.py:24-31 | a dense layer outputs one value per unit; a relu layer's values are all ≥ 0 and a sigmoid layer's all lie in (0, 1) |
| `Models.Trace` | API/app/models.py:23-32 | a stack yields one output per layer, each as wide as that layer's units, non-negative for relu layers and inside (0, 1) for sigmoid layers |
| `Models.TraceSteps` | API/app/models.py:23-32 | the first layer reads the input, and every later layer reads the previous layer's output |
| `Models.ConformsChained` | API/app/models.py:23-32 | layers whose widths follow the declared list fit one after another |
| `Models.Encode` | API/app/models.py:23-27 | the encoder maps 141 samples to the 8-wide bottleneck, whose values are all ≥ 0 |
| `Models.Decode` | API/app/models.py:28-32 | the decoder maps the 8-wide code to 141 values, each strictly in (0, 1) |
| `Models.Call` | API/app/models.py:34-37 | decoder(encoder(x)) has 141 values, each strictly in (0, 1) |
| `Models.DetectorLayers` | API/app/models.py:23-37 | the six hidden vectors have widths 32, 16, 8, 16, 32, 141; the five relu outputs are ≥ 0, the third is the bottleneck code and the sixth is the call's result, in (0, 1) |
| `Endpoints.ClipAll` | API/app/routes/endpoints.py:31 | every clipped value lies in [0, 1]; values in range are unchanged, those below go to 0, those above go to 1 |
| `Endpoints.ClipIdempotent` | API/app/routes/endpoints.py:31 | clipping twice equals clipping once |
| `Endpoints.ClipKeepsNormalized` | API/app/routes/endpoints.py:30-31 | clipping a normalised trace changes nothing |
| `Endpoints.SumAbsDiff` | API/app/routes/endpoints.py:35-36 | the sum of absolute differences is ≥ 0, and at most n when both vectors lie in [0, 1] |
| `Endpoints.MeanAbsoluteError` | API/app/routes/endpoints.py:35-36 | the loss is ≥ 0, and ≤ 1 when the input and reconstruction both lie in [0, 1] |
| `Endpoints.SumAbsDiffSymmetric` | API/app/routes/endpoints.py:35-36 | the sum of absolute differences is symmetric in its arguments |
| `Endpoints.MaeSymmetric` | API/app/routes/endpoints.py:35-36 | the loss is symmetric in input and reconstruction |
| `Endpoints.SumAbsDiffZero` | API/app/routes/endpoints.py:35-36 | the sum of absolute differences is zero exactly when the vectors are equal |
| `Endpoints.MaeZeroIffEqual` | API/app/routes/endpoints.py:35-36 | the loss is zero exactly when the reconstruction equals the input |
| `Endpoints.Prepare` | API/app/routes/endpoints.py:30-32 | the vector fed to the detector has 141 values in [0, 1] and equals the normalised trace |
| `Endpoints.Analyze` | API/app/routes/endpoints.py:24-69 | a 400 error with the validator's message exactly when the length is not 141; a degenerate-trace error exactly for constant traces; otherwise the loss is the MAE of the prepared trace against its reconstruction, lies in [0, 1], the diagnosis and risk are exactly `Diagnose(loss)`, and `status_local` is echoed |
| `Endpoints.RejectionIgnoresDetector` | API/app/routes/endpoints.py:25-28 | a rejected trace gets the same answer whatever the weights, so nothing after validation contributes to it |

## Left out

- Loading the model: `Detector()`, `build`, `compile` and `load_weights` of `PESO.weights.h5` (API/app/routes/endpoints.py:14-20) are calls into TensorFlow. The weights are a parameter, assumed to have the built shapes (`ValidDetector`). A failed load stops the process at start-up and is not modelled.
- Floating point:
  - The model computes over `real`, so the float32 cast at API/app/routes/endpoints.py:32, rounding, and NaN/Inf propagation are not modelled.
  - In float32 the sigmoid can saturate to exactly 0.0 or 1.0, so the strict (0, 1) bounds of `Models.Call` and `Models.Decode` hold of the real-valued model only.
  - The comparison of a float32 loss with the float64 constants 0.3 and 0.4 is taken as an exact comparison of reals.
- The constant-trace NaN path: the code labels a constant trace "anormal"/"alto" with a NaN loss. The model returns an explicit error instead, as described above.
- The logistic function `1 / (1 + e^-v)`: it is a parameter constrained only by its range, because real arithmetic has no exponential. Facts that need its exact values, such as monotonicity or the value at 0, are not modelled.
- Element types: `batimentos` is declared as a plain `list`. The model assumes real-valued samples; a non-numeric element, which numpy would reject, is not modelled.
- `Endpoints.MeanAbsoluteError` requires non-empty vectors of equal length. Its only caller passes two vectors of 141 values; Keras' NaN result for empty vectors is not modelled.
- Determinism of the pipeline is not stated as a lemma, because every member is a mathematical function.
- The SQLite insert at API/app/routes/endpoints.py:40-62, its 500 error, and the date and time it stamps are I/O and are not modelled. So are the query endpoints at API/app/routes/endpoints.py:73-222 (including the `perda >= 0.5` filter) and the schema in API/app/database.py.
- The FastAPI application and its CORS set-up (API/app/main.py) are transport. The Streamlit dashboard in SITE/main.py, whose `b*0.9+0.1` "reconstruction" is only for display, is not part of this model. Neither is the offline training script.
