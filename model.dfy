// The linear hypothesis and the per-sample helpers of gradient descent:
// parameters, prediction, signed error, gradient and update step.

module Model {

  /** The two parameters of the hypothesis y = w x + b. */
  datatype Params = Params(w: real, b: real) {

    /** Componentwise sum: the `+` operator used to accumulate gradients. */
    function Plus(other: Params): Params
    {
      Params(w + other.w, b + other.b)
    }
  }

  /** The starting parameters and the empty gradient total. */
  const Zero := Params(0.0, 0.0)

  /** Addition of parameters is associative and commutative, with Zero as identity. */
  lemma PlusLaws(p: Params, q: Params, s: Params)
    ensures p.Plus(q) == q.Plus(p)
    ensures p.Plus(q).Plus(s) == p.Plus(q.Plus(s))
    ensures p.Plus(Zero) == p && Zero.Plus(p) == p
  {
  }

  /** The parameters scaled by c in both components. */
  function Scaled(c: real, p: Params): Params
  {
    Params(c * p.w, c * p.b)
  }

  /** The hypothesis: the price predicted for area x. */
  function Predict(x: real, p: Params): real
  {
    p.w * x + p.b
  }

  /** The prediction is affine in x with slope w and intercept b, and linear in
      the parameters: predicting with a sum of parameters adds the predictions.
      With w = 2 and b = 3 the prediction at 4 is 11. */
  lemma PredictIsLinear(x: real, p: Params, q: Params)
    ensures Predict(0.0, p) == p.b
    ensures Predict(x + 1.0, p) - Predict(x, p) == p.w
    ensures Predict(x, p.Plus(q)) == Predict(x, p) + Predict(x, q)
    ensures Predict(x, Zero) == 0.0
    ensures Predict(4.0, Params(2.0, 3.0)) == 11.0
  {
  }

  /** The signed error of a prediction against the real value. */
  function Error(yPred: real, yReal: real): real
  {
    yPred - yReal
  }

  /** The error is signed, not absolute: it vanishes exactly when the
      prediction is right, flips sign when the arguments swap, and adding it
      to the real value gives the prediction. */
  lemma ErrorIsSigned(yPred: real, yReal: real)
    ensures Error(yPred, yReal) == 0.0 <==> yPred == yReal
    ensures Error(yPred, yReal) == -Error(yReal, yPred)
    ensures yReal + Error(yPred, yReal) == yPred
    ensures Error(10.0, 8.0) == 2.0 && Error(8.0, 10.0) == -2.0
  {
  }

  /** The contribution of one sample to the gradient of the mean squared error
      over n samples, given its error e at input x: the bias part is the share
      2e/n and the weight part is that share scaled by x. */
  function Gradients(x: real, e: real, n: int): (r: Params)
    requires n > 0
    ensures r.b * (n as real) == 2.0 * e
    ensures r.w == r.b * x
  {
    Params((2.0 / (n as real)) * e * x, (2.0 / (n as real)) * e)
  }

  /** The square of a real. */
  function Square(x: real): real { x * x }

  /** The squared error of one sample divided by the sample count: its share of
      the mean squared error. */
  function SampleLoss(x: real, y: real, p: Params, n: int): (r: real)
    requires n > 0
    ensures r >= 0.0
  {
    Square(Error(Predict(x, p), y)) / (n as real)
  }

  /** The inner product of a direction and a gradient. */
  function Dot(d: Params, g: Params): real
  {
    d.w * g.w + d.b * g.b
  }

  /** The squared change of one prediction when the parameters move by d, as a
      share of n samples: the second-order term of SampleLoss along d. */
  function SampleCurvature(x: real, d: Params, n: int): (r: real)
    requires n > 0
    ensures r >= 0.0
  {
    Square(d.w * x + d.b) / (n as real)
  }

  /** The inner product distributes over the sum of gradients. */
  lemma DotPlus(d: Params, g0: Params, g1: Params)
    ensures Dot(d, g0.Plus(g1)) == Dot(d, g0) + Dot(d, g1)
  {
  }

  /** Scaling the first argument by -c scales the inner product by -c. */
  lemma DotScaled(c: real, g: Params)
    ensures Dot(Scaled(-c, g), g) == -c * Dot(g, g)
  {
  }

  /** Scaling the direction by c scales one share by c squared. */
  lemma SampleCurvatureScales(x: real, d: Params, c: real, n: int)
    requires n > 0
    ensures SampleCurvature(x, Scaled(c, d), n) == c * c * SampleCurvature(x, d, n)
  {
  }

  /** Gradients is the derivative of SampleLoss: moving the parameters by d
      changes the loss by the gradient's inner product with d plus a
      second-order term that is quadratic in d. */
  lemma GradientsAreLossSlope(x: real, y: real, p: Params, d: Params, n: int)
    requires n > 0
    ensures SampleLoss(x, y, p.Plus(d), n) - SampleLoss(x, y, p, n)
         == Dot(d, Gradients(x, Error(Predict(x, p), y), n)) + SampleCurvature(x, d, n)
  {
  }

  /** The gradient of the sample (2, error 3) among 4 samples is (3, 1.5). */
  lemma GradientsExample()
    ensures Gradients(2.0, 3.0, 4) == Params(3.0, 1.5)
  {
  }

  /** One gradient-descent step: move against the gradient by lr. */
  function UpdateParams(p: Params, delta: Params, lr: real): Params
  {
    Params(p.w - lr * delta.w, p.b - lr * delta.b)
  }

  /** A step is the move by -lr times the gradient; a zero gradient or a zero
      learning rate leaves the parameters where they are. Stepping (1, 1)
      against (0.5, 0.5) at rate 0.1 gives (0.95, 0.95). */
  lemma UpdateParamsIsStep(p: Params, delta: Params, lr: real)
    ensures UpdateParams(p, delta, lr) == p.Plus(Scaled(-lr, delta))
    ensures UpdateParams(p, Zero, lr) == p
    ensures UpdateParams(p, delta, 0.0) == p
    ensures UpdateParams(Params(1.0, 1.0), Params(0.5, 0.5), 0.1) == Params(0.95, 0.95)
  {
  }
}
