// The mean squared error that gradient descent minimizes, and what one
// epoch of training does to it.

module Loss {
  import opened Houses
  import opened Model
  import opened Training

  /** The mean squared error of the predictions at p over n houses. */
  function Mse(data: seq<House>, p: Params, n: int): (r: real)
    requires n > 0 || data == []
    ensures r >= 0.0
    decreases |data|
  {
    if data == [] then 0.0
    else Mse(data[..|data| - 1], p, n) + SampleLoss(data[|data| - 1].area, data[|data| - 1].price, p, n)
  }

  /** The second-order term of the loss along a direction d: the mean of the
      squared changes of the predictions. It is never negative. */
  function Curvature(data: seq<House>, d: Params, n: int): (r: real)
    requires n > 0 || data == []
    ensures r >= 0.0
    decreases |data|
  {
    if data == [] then 0.0
    else Curvature(data[..|data| - 1], d, n) + SampleCurvature(data[|data| - 1].area, d, n)
  }

  /** TotalGradient is the gradient of Mse: moving the parameters by d changes
      the mean squared error by the inner product of the total gradient and d,
      plus the curvature along d. */
  lemma {:induction false} TotalGradientIsMseSlope(data: seq<House>, p: Params, d: Params, n: int)
    requires n > 0 || data == []
    ensures Mse(data, p.Plus(d), n) - Mse(data, p, n)
         == Dot(d, TotalGradient(data, p, n)) + Curvature(data, d, n)
    decreases |data|
  {
    if data != [] {
      var init := data[..|data| - 1];
      var h := data[|data| - 1];
      var g0 := TotalGradient(init, p, n);
      var g1 := SampleGradient(h, p, n);
      TotalGradientIsMseSlope(init, p, d, n);
      GradientsAreLossSlope(h.area, h.price, p, d, n);
      DotPlus(d, g0, g1);
      assert TotalGradient(data, p, n) == g0.Plus(g1);
      assert Mse(data, p.Plus(d), n) == Mse(init, p.Plus(d), n) + SampleLoss(h.area, h.price, p.Plus(d), n);
      assert Mse(data, p, n) == Mse(init, p, n) + SampleLoss(h.area, h.price, p, n);
      assert Curvature(data, d, n) == Curvature(init, d, n) + SampleCurvature(h.area, d, n);
    }
  }

  /** Scaling the direction by c scales the curvature by c squared. */
  lemma {:induction false} CurvatureScales(data: seq<House>, d: Params, c: real, n: int)
    requires n > 0 || data == []
    ensures Curvature(data, Scaled(c, d), n) == c * c * Curvature(data, d, n)
    decreases |data|
  {
    if data != [] {
      var init := data[..|data| - 1];
      CurvatureScales(init, d, c, n);
      SampleCurvatureScales(data[|data| - 1].area, d, c, n);
      var a, b := Curvature(init, d, n), SampleCurvature(data[|data| - 1].area, d, n);
      assert c * c * a + c * c * b == c * c * (a + b);
    }
  }

  /** The same for a move against the direction. */
  lemma CurvatureScalesNegated(data: seq<House>, d: Params, c: real, n: int)
    requires n > 0 || data == []
    ensures Curvature(data, Scaled(-c, d), n) == c * c * Curvature(data, d, n)
  {
    CurvatureScales(data, d, -c, n);
    NegatedSquare(c, Curvature(data, d, n));
  }

  lemma NegatedSquare(c: real, x: real)
    ensures (-c) * (-c) * x == c * c * x
  {
  }

  /** One epoch is the move by -lr times the total gradient, so its change of
      the mean squared error is the slope and curvature along that move. */
  lemma EpochIsSlopeStep(data: seq<House>, p: Params, lr: real)
    ensures Mse(data, EpochStep(data, p, lr), |data|) - Mse(data, p, |data|)
         == Dot(Scaled(-lr, TotalGradient(data, p, |data|)), TotalGradient(data, p, |data|))
          + Curvature(data, Scaled(-lr, TotalGradient(data, p, |data|)), |data|)
  {
    var g := TotalGradient(data, p, |data|);
    UpdateParamsIsStep(p, g, lr);
    TotalGradientIsMseSlope(data, p, Scaled(-lr, g), |data|);
  }

  /** One epoch changes the mean squared error by exactly
      -lr |g|^2 + lr^2 C, where g is the total gradient and C the curvature
      along it: the first-order change always points downhill. */
  lemma EpochChangesMse(data: seq<House>, p: Params, lr: real)
    ensures Mse(data, EpochStep(data, p, lr), |data|) - Mse(data, p, |data|)
         == -lr * Dot(TotalGradient(data, p, |data|), TotalGradient(data, p, |data|))
          + lr * lr * Curvature(data, TotalGradient(data, p, |data|), |data|)
  {
    var g := TotalGradient(data, p, |data|);
    EpochIsSlopeStep(data, p, lr);
    CurvatureScalesNegated(data, g, lr, |data|);
    DotScaled(lr, g);
  }

  /** With a positive learning rate small enough against the curvature (this
      excludes a zero gradient), an epoch strictly lowers the mean squared
      error. */
  lemma EpochDecreasesMse(data: seq<House>, p: Params, lr: real)
    requires lr > 0.0
    requires lr * Curvature(data, TotalGradient(data, p, |data|), |data|)
           < Dot(TotalGradient(data, p, |data|), TotalGradient(data, p, |data|))
    ensures Mse(data, EpochStep(data, p, lr), |data|) < Mse(data, p, |data|)
  {
    var g := TotalGradient(data, p, |data|);
    EpochChangesMse(data, p, lr);
    DescentArithmetic(Mse(data, EpochStep(data, p, lr), |data|), Mse(data, p, |data|),
                      lr, Dot(g, g), Curvature(data, g, |data|));
  }

  /** A change of -lr s + lr^2 c is a decrease when lr > 0 and lr c < s. */
  lemma DescentArithmetic(m1: real, m0: real, lr: real, s: real, c: real)
    requires m1 - m0 == -lr * s + lr * lr * c
    requires lr > 0.0 && lr * c < s
    ensures m1 < m0
  {
    assert lr * (lr * c) < lr * s;
  }
}
