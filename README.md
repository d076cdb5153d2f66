# AI_from_scratch: path rules and dense-network bookkeeping, in Dafny

This project models two parts of the repository and proves properties of them.

**The path-rule engine of the project extractor** (`extractor.py`) reads a rule
file. A line `+path` includes, a line `-path` excludes, and blank lines and `#`
comments are ignored. A path is processed when a non-empty inclusion matches
it and its longest matching inclusion is at least as long as its longest
matching exclusion. Matching is a raw
string prefix (`str.startswith`), not a path-component prefix: the rule `src`
also matches `src2/x`, and the model keeps that. `walk_roots` is the sorted
list of inclusions that no other inclusion is a prefix of. `os.path.normpath`
is a parameter `norm`, an arbitrary function on strings.

**The hand-written feed-forward network** (`neural_network/layer.py`,
`neural_network/network.py`) is modelled as follows:

- A `Layer` holds `matrix` (dimout × dimin) and `bias`.
- It also holds the gradient accumulators `dmatrix` and `dbias`.
- It caches the last raw sum and the last output of `step`.
- A `Network` builds a chain of layers from a spec list.
- `compute` folds `step` over the chain.
- `learn` runs mini-batch backpropagation: it accumulates over the whole batch, then applies the update once.
- `get_network` and `set_network` convert to and from an in-memory `{"Meta", "Data", "Layers"}` record.

Values are Dafny `real`. `np.exp` and `np.log` are function parameters, and the only assumption about `exp` is that it is positive.

Modules, one per component:

- `Common`: `Option`, `Result` and the exceptions the Python code can raise.
- `Vectors`: the numpy vector and matrix algebra used by the code.
- `PathRules`: `extractor.py`.
- `Activations`: activation names, relu, sigmoid, softmax and the derivatives.
- `Layers`: `neural_network/layer.py`.
- `Networks`: `neural_network/network.py`.

Each stateful class has a value twin: `LayerVal` for `Layer`, `seq<LayerVal>` for `Network`.

- Functions on the value twin (`StepOutcome`, `BpropagVal`, `ModifyVal`, `SetLayerVal`, `Run`, `LearnVal`, `LoadAll`) give what each operation does.
- The methods of the classes `Layers.Layer` and `Networks.Network` update their fields in place.
- Those methods are proved to produce exactly the new state given by the function.
- The properties are proved as lemmas about those functions.

The model follows the code in these easily misread behaviours:

- `set_network` with an unknown `Meta` does nothing and raises no error.
- `set_network` appends the loaded layers to the existing ones; it does not replace them.
- `set_network` does not check a layer's row count against `Layers`.
- `set_layer` accepts an unknown activation name. The reloaded layer keeps the elementwise function the object already had; `Layer()` installs sigmoid.

## Model

| member | source | states |
|---|---|---|
| `PathRules.StripSpec` | extractor.py:16 | `str.strip()` removes exactly the whitespace at both ends. What remains neither starts nor ends with whitespace. It is empty exactly when the line is all whitespace. |
| `PathRules.ParseLine` | extractor.py:16-28 | A blank or `#` line yields nothing. A `+` line yields its normalised remainder (first character dropped) as an inclusion. A `-` line yields it as an exclusion. Any other first character yields nothing. |
| `PathRules.ParseRules` | extractor.py:11-33 | The inclusions are the `+` lines' paths in file order. The exclusions are the `-` lines' paths in file order. Their total count is at most the number of lines. |
| `PathRules.IgnoredLineAddsNothing` | extractor.py:16-18 | Inserting a blank, comment or invalid line anywhere changes neither list. |
| `PathRules.IncludeLineAppends` | extractor.py:21-24 | A `+` line appends its path to the inclusions and leaves the exclusions unchanged. |
| `PathRules.ExcludeLineAppends` | extractor.py:21-26 | A `-` line appends its path to the exclusions and leaves the inclusions unchanged. |
| `PathRules.CollectMembers` | extractor.py:15-26 | A path is in a list exactly when some line of that kind names it. |
| `PathRules.ShouldProcessPath` | extractor.py:35-64 | The loops find the lengths of the longest matching inclusion and exclusion. The result is true exactly when the exclusion is not longer and some non-empty inclusion matches. |
| `PathRules.LongestIsMaximum` | extractor.py:45-51 | The length found is the maximum over the rules that are prefixes of the path, and some matching rule has that length. |
| `PathRules.ProcessedByMatches` | extractor.py:53-64 | A path is not processed exactly when some matching exclusion is strictly longer than every matching inclusion, or no non-empty inclusion matches. So an equal-length tie is processed. |
| `PathRules.NoInclusionNotProcessed` | extractor.py:60-64 | With no non-empty matching inclusion the path is rejected, whatever the exclusions. |
| `PathRules.ProcessedReorder` | extractor.py:45-51 | Permuting either rule list does not change the decision. |
| `PathRules.ProcessedIgnoresNonMatching` | extractor.py:45-51 | Inserting, at any position of either list, a rule that is not a prefix of the path does not change the decision. |
| `PathRules.WalkRoots` | extractor.py:77 | `walk_roots` is sorted. It holds exactly the inclusions that no different inclusion is a prefix of, each as many times as it occurs among the inclusions. |
| `PathRules.SortedUnique` | extractor.py:77 | Two sorted lists with the same elements are equal, so any correct `sorted` gives the same `walk_roots`. |
| `PathRules.RootsCoverInclusions` | extractor.py:75-77 | Every inclusion has some walk root as a prefix, so walking from the roots reaches every inclusion. |
| `Activations.ActivationName` | neural_network/layer.py:22 | A name is lower-cased. None and the empty name become "linear". The stored name is never empty and has no upper-case ASCII letter. |
| `Activations.CanonicalNameKept` | neural_network/layer.py:86-92 | A stored name that is read back by `set_layer` is kept unchanged. |
| `Activations.ActivationNameIdempotent` | neural_network/layer.py:22 | Normalising a normalised name changes nothing. |
| `Activations.SelectElementwise` | neural_network/layer.py:23-30 | relu and sigmoid install their own elementwise function. Any other name leaves the object's previous one in place. |
| `Activations.ActivationRelu` | neural_network/layer.py:66-67 | The result of relu is at least 0 and at least its argument, and it is either the argument or 0. |
| `Activations.ActivationSigmoid` | neural_network/layer.py:69-70 | With a positive exponential, sigmoid lies strictly between 0 and 1. |
| `Activations.DerivativeRelu` | neural_network/layer.py:72-74 | The relu derivative is always 0 or 1. |
| `Activations.ReluDerivativeAtActivated` | neural_network/layer.py:72-74 | Taken at the activated value, the relu derivative is 1 exactly when the raw value is positive. |
| `Activations.SigmoidDerivativeBounds` | neural_network/layer.py:76-78 | At an activated sigmoid value, `a(1−a)` lies in (0, 1/4]. |
| `Activations.Max` | neural_network/layer.py:37 | `np.max` is at least every component and equals one of them. |
| `Activations.SoftmaxIsDistribution` | neural_network/layer.py:36-38 | With positive exponentials, every softmax component is in (0, 1] and the components sum to 1. |
| `Layers.Fresh` | neural_network/layer.py:8-30 | A new layer has a dimout × dimin matrix and a bias of length dimout, with entries `2u−1` in [-1, 1). Both accumulators are zero with the same shapes. The name is normalised. |
| `Layers.Layer.constructor` | neural_network/layer.py:8-30 | The object's fields are those of `Fresh`. |
| `Layers.StepVal` | neural_network/layer.py:32-45 | The output has length dimout. `last_raw_data` is `matrix·in+bias` and `last_neuron_data` is the output. Nothing else changes. For "linear" the output is the raw sum. |
| `Layers.StepOutcome` | neural_network/layer.py:32-45 | `step` succeeds exactly when the input has length dimin and the activation can run. A wrong length raises before anything changes. A softmax over zero outputs, or a name with no elementwise function, raises after the raw sum is cached. |
| `Layers.StepOutputRange` | neural_network/layer.py:36-42 | A softmax layer outputs a distribution. A relu layer never outputs a negative value. A sigmoid layer's outputs lie in (0, 1). |
| `Layers.StepDependsOnParamsOnly` | neural_network/layer.py:32-45 | The output of `step` depends only on the matrix, the bias and the activation, never on the caches or the accumulators. |
| `Layers.Layer.Step` | neural_network/layer.py:32-45 | The method's result and new state are those of `StepOutcome`. |
| `Layers.PassThroughDelta` | neural_network/layer.py:48-51 | For softmax and linear layers, delta is the incoming signal unchanged. |
| `Layers.BpropagVal` | neural_network/layer.py:47-58 | delta is added to `dbias` and `outer(delta, prev)` to `dmatrix`, a length-1 `prev` repeating along the rows. With `prev` of length dimin this is `dmatrix + outer(delta, prev)` exactly. The result has length dimin and is the adjoint: ⟨out, v⟩ = ⟨delta, matrix·v⟩ for every v. Matrix, bias, activation and caches are unchanged. |
| `Layers.BpropagOutcome` | neural_network/layer.py:47-58 | `layer_bpropag` succeeds exactly when delta can be formed, has dimout entries, and `prev` has dimin entries or one. Without a derivative or a cache it raises before anything changes. Otherwise it raises ShapeMismatch, and `dbias` and `dmatrix` hold exactly the in-place additions numpy completed before the failing step. Matrix, bias, activation and caches never change. |
| `Layers.OneEntrySignalBroadcasts` | neural_network/layer.py:53-55 | A one-entry signal on an elementwise layer is broadcast: the call succeeds and every bias gradient gains the derivative at that neuron times the signal. |
| `Layers.OneEntrySignalFailsLate` | neural_network/layer.py:49-57 | On a softmax or linear layer of other than one neuron, a one-entry signal raises only at `transpose(matrix) @ delta`. By then every bias gradient has gained the signal and every matrix gradient the signal times `prev`. |
| `Vectors.AddOuterIntoExact` | neural_network/layer.py:56 | Without broadcasting, the in-place `dmatrix += np.outer(a, b)` equals `dmatrix + outer(a, b)`. |
| `Layers.TransposeIsAdjoint` | neural_network/layer.py:57 | `transpose(m)·d` satisfies ⟨transpose(m)·d, x⟩ = ⟨d, m·x⟩. |
| `Layers.Layer.LayerBpropag` | neural_network/layer.py:47-58 | The method's result and new state are those of `BpropagOutcome`, including the accumulator updates left behind when it raises part-way. |
| `Layers.ModifyVal` | neural_network/layer.py:60-64 | Each entry becomes `p − g·deltat/n`. Both accumulators become zero. Shape, activation and caches are kept. |
| `Layers.ModifyZeroRate` | neural_network/layer.py:60-64 | With deltat = 0 the matrix and bias are unchanged. |
| `Layers.ModifyCleared` | neural_network/layer.py:60-64 | With zero accumulators, `modify` changes nothing. |
| `Layers.ModifyTwice` | neural_network/layer.py:60-64 | A second `modify` with no backpropagation in between has no effect. |
| `Layers.Layer.Modify` | neural_network/layer.py:60-64 | The new state is `ModifyVal` of the old. |
| `Layers.Layer.GetLayer` | neural_network/layer.py:80-87 | The record holds the matrix, the bias and the activation name. |
| `Layers.SetLayerVal` | neural_network/layer.py:89-94 | Loading succeeds exactly for a non-empty rectangular matrix with a matching bias. dimout is `len(Matrix)` and dimin is `len(Matrix[0])`. The accumulators are zero. An empty matrix raises IndexError. |
| `Layers.Layer.SetLayer` | neural_network/layer.py:89-94 | On success the object becomes `SetLayerVal`. On an error nothing changes. |
| `Layers.GetSetRoundTrip` | neural_network/layer.py:80-94 | `set_layer(get_layer())` succeeds exactly when dimout > 0. It reproduces the matrix, bias, shape and name, and for a known activation it behaves identically. |
| `Layers.ReloadedStepsAlike` | neural_network/layer.py:80-94 | A reloaded layer with a known activation computes the same `step` output. |
| `Layers.ReloadedUnknownKeepsPrevious` | neural_network/layer.py:89-94 | A reloaded layer with an unknown name applies the elementwise function its object had before. |
| `Networks.Built` | neural_network/network.py:7-13 | There are `len(spec)−1` layers (none for a shorter spec). Layer k maps `spec[k].neurons` to `spec[k+1].neurons` with `spec[k+1]`'s activation. The widths chain and the accumulators are zero. |
| `Networks.Network.constructor` | neural_network/network.py:7-13 | The spec list is kept and the layers are those of `Built`. |
| `Networks.RunResult` | neural_network/network.py:15-18 | `compute` succeeds exactly when the input has the first layer's width, the widths chain and every layer can run. The output then has the last layer's width. |
| `Networks.RunCaches` | neural_network/network.py:15-18 | After a successful `compute`, every layer has cached an output of its own width. |
| `Networks.RunFrame` | neural_network/network.py:15-18 | `compute` changes only the caches, and only of the layers it has stepped. |
| `Networks.RunDependsOnParamsOnly` | neural_network/network.py:15-18 | The result of `compute` depends only on the parameters and activations. |
| `Networks.Network.Compute` | neural_network/network.py:15-18 | The method's result and new layers are those of `Run`. |
| `Networks.SquaredSignalIsGradient` | neural_network/network.py:33-35 | Without softmax, the output signal `2·(estimate−target)` is the gradient of the squared loss. Moving estimate component i by t changes the loss by t·signal[i] + t². |
| `Networks.SquaredLoss` | neural_network/network.py:33-35 | The squared loss is at least 0, and it is 0 exactly when the estimate equals the target. |
| `Networks.BackSpec` | neural_network/network.py:37-40 | The backward pass, from the last layer down to layer 0, changes only accumulators, and only those of the layers it visits. |
| `Networks.BackNext` | neural_network/network.py:38-39 | Layer j > 0 receives layer j−1's cached output, and its returned signal has layer j−1's width. |
| `Networks.BackFirst` | neural_network/network.py:40 | Layer 0 receives the raw input. |
| `Networks.BatchVal` | neural_network/network.py:24-40 | Parameters and activations are untouched inside the batch loop. |
| `Networks.LearnVal` | neural_network/network.py:20-46 | After `learn`, every accumulator is zero and every shape and activation is kept. |
| `Networks.LearnReportsLossBeforeUpdate` | neural_network/network.py:24-46 | `learn` returns the mean loss of the network as it was before the call, whatever the learning rate. |
| `Networks.SquaredLearnLossNonNegative` | neural_network/network.py:33-46 | Without a softmax output, the returned mean loss is at least 0. |
| `Networks.LearnZeroRate` | neural_network/network.py:42-44 | With deltat = 0, `learn` leaves every parameter unchanged. |
| `Networks.Network.ModifyLayers` | neural_network/network.py:43-44 | `modify` runs exactly once on every layer, with the same deltat and n. |
| `Networks.Network.Learn` | neural_network/network.py:20-46 | An empty network raises IndexError and an empty batch raises ZeroDivisionError. Otherwise the new layers and the mean loss are those of `LearnVal`. |
| `Networks.ParameterCountOfSpec` | neural_network/network.py:48-58 | Layers shaped after the spec have Σ (nᵢ·nᵢ₊₁ + nᵢ₊₁) parameters. |
| `Networks.BuiltParameterCount` | neural_network/network.py:7-58 | A freshly built network has Σ (nᵢ·nᵢ₊₁ + nᵢ₊₁) parameters. |
| `Networks.Network.TrainableParameters` | neural_network/network.py:48-58 | The count is `matrix.size + bias.size`, summed over the layers behind spec entries 1.. . It raises IndexError when the spec has more entries than layers + 1. |
| `Networks.Network.GetNetwork` | neural_network/network.py:60-66 | The record holds Meta "1.0", one `get_layer` record per layer in forward order, and the spec list. |
| `Networks.LoadAllSpec` | neural_network/network.py:82-85 | The loop loads exactly the successful prefix of the records. A failure is the fault of the first record that failed. |
| `Networks.Network.SetNetwork` | neural_network/network.py:79-85 | A record with Meta other than "1.0" changes nothing and raises nothing. With "1.0", the spec list is replaced and the loaded layers are appended after the existing ones. |
| `Networks.NetworkRoundTrip` | neural_network/network.py:60-85 | Loading `get_network`'s Data reproduces every layer's shape, matrix, bias and name, with zero accumulators. |
| `Networks.ReloadedNetworkComputesAlike` | neural_network/network.py:60-85 | A network with known activations, saved and reloaded, computes the same outputs. |
| `Networks.SaveAndReload` | neural_network/network.py:60-85 | `get_network` followed by `set_network` on a new `Network()` brings back the spec list and every layer's parameters and activation. |

## Left out

- File I/O: reading the rule file, `FileNotFoundError` in `parse_rules`, `save_network`/`load_network` and JSON. Rules are a sequence of lines already read, and networks are saved as in-memory records.
- The `os.walk` traversal of `walk_and_collect_structure` beyond `walk_roots`, `write_output`, and the command-line driver of the extractor: these are file-system I/O.
- `os.path.normpath` is an arbitrary function parameter. Its actual behaviour is a library call outside this model.
- `str.strip` is modelled by Python's whitespace set; `str.lower` only on ASCII letters.
- Floating point: values are exact reals. `np.exp` and `np.log` are parameters, and `exp` is only assumed positive. Nothing is claimed about rounding, overflow, NaN or convergence (XOR training).
- `np.random.rand` is a parameter whose values lie in [0, 1).
- `Networks.Network.Learn`: the precondition requires every example and target to have the network's widths and every layer to be able to run. The code would raise part-way through the batch or broadcast mismatched shapes; those paths are not modelled.
- `Networks.Network.Learn`: on an empty batch, numpy's division by zero in `modify` turns parameters into NaN before `ZeroDivisionError`. The model does not state the parameters in that case.
- `Networks.Loss`: for softmax, the cross-entropy loss is stated by its definition only. Nothing is proved about `log`.
- `Layers.SetLayerVal`: a Bias whose length differs from the row count is rejected with ShapeMismatch. The code stores it and fails later, or broadcasts a length-1 bias.
- `Layers.Layer.SetLayer`: inherits that rejection of a Bias of the wrong length, so the object is left unchanged where the code stores the bias.
- `Networks.Network.SetNetwork`: inherits the same rejection, so loading stops at such a record where the code appends the layer with its wrong-length bias.
- The training and plotting drivers, the image importer, the TensorFlow script, and the superseded `main/` and root-level `layer.py`/`network.py` revisions are not part of this model.
- Sharing of numpy arrays is not modelled. Matrices and vectors are values, and the code never aliases them between layers.
