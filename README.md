# Linear regression of house prices, modelled in Dafny

This project models the one-variable linear regression in
`src/main/kotlin/pt/isel/ls/houses/LinearRegression.kt`. The program predicts a house's
price from its area in three stages:

- **Min-max scaling.** A `Scale` is fitted to a column of values. It keeps the column's
  `min`, `max` and `delta = max - min`. It maps a value to `(value - min) / delta` and
  maps it back with `value * delta + min`. `List<House>.normalize` fits one scale to the
  areas and one to the prices, then maps every house through both.
- **The hypothesis and its helpers.** The parameters are `Params(w, b)`, added
  componentwise. The hypothesis is `predict(x) = w x + b`. The signed error is
  `prediction - real`. The per-sample gradient of the mean squared error (MSE) is
  `((2/n) e x, (2/n) e)`. An update step subtracts `lr` times a gradient.
- **Full-batch gradient descent.** `train` starts from `(0, 0)` and runs `epochs` epochs.
  Each epoch folds the per-sample gradients into a total. Every sample's gradient uses
  the parameters from the start of the epoch. Then one update is applied.

Kotlin `Double` is modelled as Dafny `real`, so every property holds exactly. IEEE
rounding is not modelled.

Layout, one module per part of the source file:

- `houses.dfy` (`Houses`): the `House` record, the six sample houses, and the area and
  price columns.
- `normalization.dfy` (`Normalization`): `MinOf`/`MaxOf`, the `Scale` datatype with
  `Normalize`/`Denormalize`, `Fit`, `NormalizedData` and `NormalizeHouses`.
- `model.dfy` (`Model`): `Params`, `Plus`, `Predict`, `Error`, `Gradients`,
  `UpdateParams`, and the per-sample squared loss that `Gradients` differentiates.
- `training.dfy` (`Training`): the fold as the function `TotalGradient`, `EpochStep`,
  `TrainSpec`, and the method `Train`. `Train` has nested `while` loops like the source's
  `repeat` and `fold`, and is proved equal to `TrainSpec`.
- `loss.dfy` (`Loss`): the batch MSE. It proves that the fold computes the MSE gradient
  and gives the exact change one epoch makes to the MSE.

The Kotlin class `Scale` only has `val`s, computed once in its constructor. It is
therefore an immutable datatype here, built by `Fit`. `train` reassigns a local variable
in a loop, so it is a method whose loop invariants tie it to `TrainSpec`.

The code guards none of its inputs, and the model keeps those cases as they are:

- There is no guard for an empty list or a list of equal values. An empty list makes
  `values.min()` throw; `Fit` returns `None` for it. A list of equal values is accepted
  with `delta == 0`, and `normalize` then divides by zero. So `Normalize` requires
  `delta != 0`, and `NormalizeHouses` requires a non-empty list to have two different
  areas and two different prices.
- The code validates neither `epochs` nor `lr`. `repeat` with a zero or negative count
  runs no epoch, so `Train` returns `(0, 0)`; any learning rate is accepted. The
  defaults are 3000 epochs at rate 0.05, as in the code.
- An empty dataset is not an error. The fold never calls `gradients`, so the total stays
  `(0, 0)`, nothing divides by zero, and training returns `(0, 0)`.

## Model

| member | source | states |
|---|---|---|
| `Houses.House` | src/main/kotlin/pt/isel/ls/houses/LinearRegression.kt:15 | a record of an area and a price; no contract, a plain datatype |
| `Houses.SampleHouses` | src/main/kotlin/pt/isel/ls/houses/LinearRegression.kt:18-27 | the six houses of the program; no contract, `SampleHousesIntoUnit` states their normalized range |
| `Houses.Areas` | src/main/kotlin/pt/isel/ls/houses/LinearRegression.kt:54 | the area column of a list of houses, taken as `map { it.area }`; no contract, `NormalizeHouses` states its use |
| `Houses.Prices` | src/main/kotlin/pt/isel/ls/houses/LinearRegression.kt:55 | the price column of a list of houses, taken as `map { it.price }`; no contract, `NormalizeHouses` states its use |
| `Normalization.MinOf` | src/main/kotlin/pt/isel/ls/houses/LinearRegression.kt:35 | the minimum of a non-empty list is one of its elements and is at most every element |
| `Normalization.MaxOf` | src/main/kotlin/pt/isel/ls/houses/LinearRegression.kt:36 | the maximum of a non-empty list is one of its elements and is at least every element |
| `Normalization.Fit` | src/main/kotlin/pt/isel/ls/houses/LinearRegression.kt:34-37 | fitting fails exactly on the empty list; otherwise min and max are elements of the list, every element lies in [min, max], and delta = max - min |
| `Normalization.FitDeltaPositiveIffSpread` | src/main/kotlin/pt/isel/ls/houses/LinearRegression.kt:35-37 | the fitted delta is never negative, and it is positive if and only if the list holds two different values |
| `Normalization.Scale.Normalize` | src/main/kotlin/pt/isel/ls/houses/LinearRegression.kt:40-42 | when delta != 0, denormalizing a normalized value gives it back, for every real value, inside the range or not |
| `Normalization.NormalizeDenormalize` | src/main/kotlin/pt/isel/ls/houses/LinearRegression.kt:40-42 | when delta != 0, normalizing a denormalized value gives it back, for every real value |
| `Normalization.Scale.Denormalize` | src/main/kotlin/pt/isel/ls/houses/LinearRegression.kt:42 | maps a scaled value back by `value * delta + min`; no contract of its own, the round trips are stated by `Normalization.Scale.Normalize` and `Normalization.NormalizeDenormalize` |
| `Normalization.ScaleEndpoints` | src/main/kotlin/pt/isel/ls/houses/LinearRegression.kt:37-40 | a scale with delta = max - min != 0 maps min to 0 and max to 1 |
| `Normalization.NormalizeEndpoints` | src/main/kotlin/pt/isel/ls/houses/LinearRegression.kt:34-40 | for a list with two different values, the fitted scale has delta > 0 and maps the list's minimum to 0 and its maximum to 1 |
| `Normalization.NormalizeIntoUnit` | src/main/kotlin/pt/isel/ls/houses/LinearRegression.kt:40 | with delta = max - min > 0, every value in [min, max] normalizes into [0, 1] |
| `Normalization.FittedValuesIntoUnit` | src/main/kotlin/pt/isel/ls/houses/LinearRegression.kt:34-40 | every element of a list with two different values normalizes into [0, 1] under the scale fitted to that list |
| `Normalization.NormalizedData` | src/main/kotlin/pt/isel/ls/houses/LinearRegression.kt:46-50 | the two fitted scales and the normalized houses; no contract, a plain datatype built by `NormalizeHouses` |
| `Normalization.NormalizeHouses` | src/main/kotlin/pt/isel/ls/houses/LinearRegression.kt:53-59 | fails exactly on the empty list; otherwise the area and price scales are the ones fitted to the area and price columns, both have positive delta, the length is kept, and house i becomes (areas.normalize(area i), prices.normalize(price i)) |
| `Normalization.NormalizedHousesIntoUnit` | src/main/kotlin/pt/isel/ls/houses/LinearRegression.kt:53-59 | every normalized area and price lies in [0, 1], and denormalizing through the two scales gives back the original area and price |
| `Normalization.SampleHousesIntoUnit` | src/main/kotlin/pt/isel/ls/houses/LinearRegression.kt:18-27 | the six sample houses have two different areas and two different prices, and all of them normalize into the unit square |
| `Normalization.ScaleExampleEndpoints` | src/main/kotlin/pt/isel/ls/houses/LinearRegression.kt:34-40 | the scale of 10, 20, 30 is (10, 30, 20); it maps 10 to 0 and 30 to 1 |
| `Normalization.ScaleExampleRoundTrip` | src/main/kotlin/pt/isel/ls/houses/LinearRegression.kt:34-42 | the scale of 5, 15 maps 10 to 0.5 and maps 0.5 back to 10 |
| `Model.PlusLaws` | src/main/kotlin/pt/isel/ls/houses/LinearRegression.kt:66-68 | adding parameters is commutative and associative, and (0, 0) is its identity |
| `Model.Params.Plus` | src/main/kotlin/pt/isel/ls/houses/LinearRegression.kt:68 | componentwise sum of two parameter pairs; no contract, its laws are `Model.PlusLaws` |
| `Model.PredictIsLinear` | src/main/kotlin/pt/isel/ls/houses/LinearRegression.kt:71 | the prediction has intercept b and slope w in x; it is additive in the parameters and zero for (0, 0); Params(2, 3) at 4 gives 11 |
| `Model.Predict` | src/main/kotlin/pt/isel/ls/houses/LinearRegression.kt:71 | the hypothesis w x + b; no contract, its properties are `Model.PredictIsLinear` |
| `Model.ErrorIsSigned` | src/main/kotlin/pt/isel/ls/houses/LinearRegression.kt:78-79 | the error is zero if and only if prediction equals real; swapping the arguments negates it; real + error = prediction; error(10, 8) = 2 and error(8, 10) = -2 |
| `Model.Error` | src/main/kotlin/pt/isel/ls/houses/LinearRegression.kt:78-79 | the signed error prediction - real; no contract, its properties are `Model.ErrorIsSigned` |
| `Model.Gradients` | src/main/kotlin/pt/isel/ls/houses/LinearRegression.kt:83-86 | for n > 0, n times the bias component is 2e, and the weight component is the bias component times x |
| `Model.GradientsAreLossSlope` | src/main/kotlin/pt/isel/ls/houses/LinearRegression.kt:82-86 | the gradient is the derivative of the sample's share e²/n of the MSE: moving the parameters by d changes that share by the inner product of d and the gradient, plus a term quadratic in d |
| `Model.GradientsExample` | src/main/kotlin/pt/isel/ls/houses/LinearRegression.kt:83-86 | gradients(2, 3, 4) = (3, 1.5) |
| `Model.UpdateParams` | src/main/kotlin/pt/isel/ls/houses/LinearRegression.kt:89-92 | moves the parameters against a gradient scaled by lr; no contract, its properties are `Model.UpdateParamsIsStep` |
| `Model.UpdateParamsIsStep` | src/main/kotlin/pt/isel/ls/houses/LinearRegression.kt:89-92 | an update is the move by -lr times the gradient; a zero gradient or a zero rate changes nothing; (1, 1) stepped against (0.5, 0.5) at rate 0.1 gives (0.95, 0.95) |
| `Training.SampleGradient` | src/main/kotlin/pt/isel/ls/houses/LinearRegression.kt:110-112 | the gradient of one house at the epoch's parameters: predict, error, then `gradients` with n = `data.size`; no contract, `Training.TotalGradientClosedForm` sums it |
| `Training.TotalGradient` | src/main/kotlin/pt/isel/ls/houses/LinearRegression.kt:109-113 | the fold from (0, 0) adding the sample gradients in list order, all at the same parameters; no contract, its properties are `Training.TotalGradientClosedForm`, `Training.TotalGradientAppend` and `Loss.TotalGradientIsMseSlope` |
| `Training.TotalGradientClosedForm` | src/main/kotlin/pt/isel/ls/houses/LinearRegression.kt:109-113 | over n samples, the folded total is (2/n) times the sum of the area-weighted errors for w, and (2/n) times the sum of the errors for b, all at the same parameters |
| `Training.TotalGradientAppend` | src/main/kotlin/pt/isel/ls/houses/LinearRegression.kt:109-113 | the total over a concatenation is the sum of the totals over its two parts |
| `Training.TotalGradientSwap` | src/main/kotlin/pt/isel/ls/houses/LinearRegression.kt:109-113 | swapping the two parts of the data does not change the total |
| `Training.EpochStep` | src/main/kotlin/pt/isel/ls/houses/LinearRegression.kt:108-114 | one epoch: one update against the folded total at the start-of-epoch parameters; no contract, its properties are `Training.PerfectFitIsFixedPoint` and `Loss.EpochChangesMse` |
| `Training.TrainSpec` | src/main/kotlin/pt/isel/ls/houses/LinearRegression.kt:105-115 | the parameters after k epochs: (0, 0) at k = 0, and one `EpochStep` from the result of k - 1 epochs; no contract, `Training.Train` is proved equal to it |
| `Training.TrainSpecEmptyData` | src/main/kotlin/pt/isel/ls/houses/LinearRegression.kt:105-115 | on empty data every epoch count and every learning rate give (0, 0) |
| `Training.Train` | src/main/kotlin/pt/isel/ls/houses/LinearRegression.kt:99-117 | with defaults of 3000 epochs at rate 0.05, returns `TrainSpec` at max(epochs, 0): (0, 0) after no epoch, and one `EpochStep` (fold the gradients at the start-of-epoch parameters, apply one update) after each further epoch; no epoch runs for epochs <= 0, and empty data gives (0, 0) |
| `Training.PerfectFitZeroGradient` | src/main/kotlin/pt/isel/ls/houses/LinearRegression.kt:109-113 | when every prediction equals its price, the folded total is (0, 0) |
| `Training.PerfectFitIsFixedPoint` | src/main/kotlin/pt/isel/ls/houses/LinearRegression.kt:108-114 | when every prediction equals its price, an epoch leaves the parameters unchanged, at any learning rate |
| `Training.LineDataFixedPoint` | src/main/kotlin/pt/isel/ls/houses/LinearRegression.kt:108-114 | on the data of y = 2x at 0, 0.5 and 1, the parameters (2, 0) are a fixed point of the epoch |
| `Training.FixedPointPersists` | src/main/kotlin/pt/isel/ls/houses/LinearRegression.kt:108-115 | once the result of k epochs is a fixed point of the epoch, every later epoch count gives the same parameters |
| `Loss.Mse` | src/main/kotlin/pt/isel/ls/houses/LinearRegression.kt:82 | the mean squared error, summed sample by sample, is never negative |
| `Loss.Curvature` | src/main/kotlin/pt/isel/ls/houses/LinearRegression.kt:82 | the second-order term of the MSE along a direction is never negative |
| `Loss.TotalGradientIsMseSlope` | src/main/kotlin/pt/isel/ls/houses/LinearRegression.kt:82-86 | the folded total is the gradient of the MSE: moving the parameters by d changes the MSE by the inner product of d and the total, plus the curvature along d |
| `Loss.CurvatureScales` | src/main/kotlin/pt/isel/ls/houses/LinearRegression.kt:82 | scaling the direction by c scales the curvature by c² |
| `Loss.EpochIsSlopeStep` | src/main/kotlin/pt/isel/ls/houses/LinearRegression.kt:108-114 | an epoch changes the MSE by the slope and the curvature along the move -lr times the total gradient |
| `Loss.EpochChangesMse` | src/main/kotlin/pt/isel/ls/houses/LinearRegression.kt:108-114 | one epoch changes the MSE by exactly -lr (g·g) + lr² C, where g is the total gradient and C is the curvature along g |
| `Loss.EpochDecreasesMse` | src/main/kotlin/pt/isel/ls/houses/LinearRegression.kt:108-114 | if lr > 0 and lr C < g·g, one epoch strictly lowers the MSE |

## Left out

- `main` and its nested `getPriceForArea` (`LinearRegression.kt:123-143`) are left out. They print the trained parameters and predict one price with `roundToLong`; this is console output and formatting.
- IEEE-754 behaviour is left out: rounding, and the NaN and infinity that a zero-length scale or a diverging run would produce. `Double` is `real`, and the unguarded division by a zero delta is a precondition.
- `Normalization.Scale.Normalize` requires `delta != 0`. The Kotlin code divides anyway and yields NaN or infinity.
- `Normalization.NormalizeHouses` requires two different areas and two different prices in a non-empty list, for the same reason.
- The `n: Int` parameter of `gradients` is an unbounded integer. A 32-bit overflow of `data.size` cannot happen for a list that fits in memory.
- The tests' convergence claims are left out: `w` near 2 and `b` near 0 after 5000 epochs, and an error under 0.05 after 4000 epochs. They are numerical results about a floating-point iteration. The model proves the exact one-epoch change of the MSE and the fixed point at a perfect fit instead.
- The build file `build.gradle.kts` is build configuration. Its PostgreSQL dependency is not used by the modelled code.
