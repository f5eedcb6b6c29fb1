// Full-batch gradient descent: every epoch folds the per-sample gradients,
// all taken at the parameters the epoch started with, and applies one update.

module Training {
  import opened Houses
  import opened Model

  /** The gradient contribution of one house at parameters p, among n houses. */
  function SampleGradient(h: House, p: Params, n: int): Params
    requires n > 0
  {
    Gradients(h.area, Error(Predict(h.area, p), h.price), n)
  }

  /** The sum of the signed errors of the predictions at p. */
  function ErrorSum(data: seq<House>, p: Params): real
    decreases |data|
  {
    if data == [] then 0.0
    else ErrorSum(data[..|data| - 1], p) + Error(Predict(data[|data| - 1].area, p), data[|data| - 1].price)
  }

  /** The sum of the signed errors weighted by the areas. */
  function WeightedErrorSum(data: seq<House>, p: Params): real
    decreases |data|
  {
    if data == [] then 0.0
    else
      var h := data[|data| - 1];
      WeightedErrorSum(data[..|data| - 1], p) + Error(Predict(h.area, p), h.price) * h.area
  }

  /** The fold inside `train`: the running total of the sample gradients,
      from Zero, in list order, all taken at the same parameters p. */
  function TotalGradient(data: seq<House>, p: Params, n: int): Params
    requires n > 0 || data == []
    decreases |data|
  {
    if data == [] then Zero
    else TotalGradient(data[..|data| - 1], p, n).Plus(SampleGradient(data[|data| - 1], p, n))
  }

  /** Over n houses the total is the gradient of the mean squared error: 2/n
      times the sum of the errors for the bias, 2/n times the sum of the
      area-weighted errors for the weight. */
  lemma {:induction false} TotalGradientClosedForm(data: seq<House>, p: Params, n: int)
    requires n > 0
    ensures var k := 2.0 / (n as real);
      TotalGradient(data, p, n) == Params(k * WeightedErrorSum(data, p), k * ErrorSum(data, p))
    decreases |data|
  {
    if data != [] {
      var init := data[..|data| - 1];
      var h := data[|data| - 1];
      var e := Error(Predict(h.area, p), h.price);
      TotalGradientClosedForm(init, p, n);
      Distributes(2.0 / (n as real), WeightedErrorSum(init, p), ErrorSum(init, p), e, h.area);
    }
  }

  /** Distributivity of the share k over the running sums. */
  lemma Distributes(k: real, sw: real, sb: real, e: real, x: real)
    ensures k * sw + k * e * x == k * (sw + e * x)
    ensures k * sb + k * e == k * (sb + e)
  {
  }

  /** One epoch: a single update against the total gradient at p. */
  function EpochStep(data: seq<House>, p: Params, lr: real): Params
  {
    UpdateParams(p, TotalGradient(data, p, |data|), lr)
  }

  /** The parameters after the given number of epochs, starting from Zero. */
  function TrainSpec(data: seq<House>, epochs: nat, lr: real): Params
  {
    if epochs == 0 then Zero else EpochStep(data, TrainSpec(data, epochs - 1, lr), lr)
  }

  /** Runs the given number of epochs of full-batch gradient descent (`train`),
      3000 epochs at rate 0.05 unless told otherwise. A negative count runs no
      epoch, as `repeat` does, and empty data is not an error. */
  method Train(data: seq<House>, epochs: int := 3000, lr: real := 0.05) returns (params: Params)
    ensures params == TrainSpec(data, if epochs < 0 then 0 else epochs, lr)
    ensures epochs <= 0 ==> params == Zero
    ensures data == [] ==> params == Zero
  {
    params := Params(0.0, 0.0);
    var epoch := 0;
    while epoch < epochs
      invariant 0 <= epoch <= (if epochs < 0 then 0 else epochs)
      invariant params == TrainSpec(data, epoch, lr)
    {
      var total := Params(0.0, 0.0);
      var i := 0;
      while i < |data|
        invariant 0 <= i <= |data|
        invariant total == TotalGradient(data[..i], params, |data|)
      {
        var house := data[i];
        var yPred := Predict(house.area, params);
        var e := Error(yPred, house.price);
        assert data[..i + 1][..i] == data[..i];
        total := total.Plus(Gradients(house.area, e, |data|));
        i := i + 1;
      }
      assert data[..i] == data;
      params := UpdateParams(params, total, lr);
      epoch := epoch + 1;
    }
    if data == [] {
      TrainSpecEmptyData(epoch, lr);
    }
  }

  /** On empty data the fold adds nothing, so every epoch steps by a zero
      gradient and training never leaves (0, 0), whatever the epoch count
      and the learning rate. */
  lemma {:induction false} TrainSpecEmptyData(k: nat, lr: real)
    ensures TrainSpec([], k, lr) == Zero
    decreases k
  {
    if k > 0 {
      TrainSpecEmptyData(k - 1, lr);
    }
  }

  /** The total over a concatenation is the sum of the totals of the parts, so
      the fold can be split into independent parts. */
  lemma {:induction false} TotalGradientAppend(a: seq<House>, b: seq<House>, p: Params, n: int)
    requires n > 0
    ensures TotalGradient(a + b, p, n) == TotalGradient(a, p, n).Plus(TotalGradient(b, p, n))
    decreases |b|
  {
    if b == [] {
      assert a + b == a;
    } else {
      var init := b[..|b| - 1];
      var last := b[|b| - 1];
      var ab := a + b;
      assert ab[..|ab| - 1] == a + init;
      assert ab[|ab| - 1] == last;
      var g := SampleGradient(last, p, n);
      assert TotalGradient(ab, p, n) == TotalGradient(a + init, p, n).Plus(g);
      assert TotalGradient(b, p, n) == TotalGradient(init, p, n).Plus(g);
      TotalGradientAppend(a, init, p, n);
      PlusLaws(TotalGradient(a, p, n), TotalGradient(init, p, n), g);
    }
  }

  /** The order of the two parts does not change the total. */
  lemma TotalGradientSwap(a: seq<House>, b: seq<House>, p: Params, n: int)
    requires n > 0
    ensures TotalGradient(a + b, p, n) == TotalGradient(b + a, p, n)
  {
    TotalGradientAppend(a, b, p, n);
    TotalGradientAppend(b, a, p, n);
  }

  /** Parameters that predict every price exactly fit the data perfectly. */
  predicate PerfectFit(data: seq<House>, p: Params)
  {
    forall i :: 0 <= i < |data| ==> Predict(data[i].area, p) == data[i].price
  }

  /** At a perfect fit every sample gradient is zero, and so is the total. */
  lemma {:induction false} PerfectFitZeroGradient(data: seq<House>, p: Params, n: int)
    requires n > 0 || data == []
    requires PerfectFit(data, p)
    ensures TotalGradient(data, p, n) == Zero
    decreases |data|
  {
    if data != [] {
      var init := data[..|data| - 1];
      assert PerfectFit(init, p) by {
        forall i | 0 <= i < |init| ensures Predict(init[i].area, p) == init[i].price {
          assert init[i] == data[i];
        }
      }
      PerfectFitZeroGradient(init, p, n);
      assert Predict(data[|data| - 1].area, p) == data[|data| - 1].price;
    }
  }

  /** A perfect fit is a fixed point of the epoch, whatever the learning rate. */
  lemma PerfectFitIsFixedPoint(data: seq<House>, p: Params, lr: real)
    requires PerfectFit(data, p)
    ensures EpochStep(data, p, lr) == p
  {
    PerfectFitZeroGradient(data, p, |data|);
  }

  /** The data of y = 2x at 0, 0.5 and 1: the line w = 2, b = 0 fits it
      perfectly, so those parameters are a fixed point of the epoch. */
  lemma LineDataFixedPoint(lr: real)
    ensures var data := [House(0.0, 0.0), House(0.5, 1.0), House(1.0, 2.0)];
      EpochStep(data, Params(2.0, 0.0), lr) == Params(2.0, 0.0)
  {
    PerfectFitIsFixedPoint([House(0.0, 0.0), House(0.5, 1.0), House(1.0, 2.0)], Params(2.0, 0.0), lr);
  }

  /** Once training reaches a fixed point of the epoch it stays there. */
  lemma {:induction false} FixedPointPersists(data: seq<House>, k: nat, m: nat, lr: real)
    requires EpochStep(data, TrainSpec(data, k, lr), lr) == TrainSpec(data, k, lr)
    ensures TrainSpec(data, k + m, lr) == TrainSpec(data, k, lr)
    decreases m
  {
    if m > 0 {
      FixedPointPersists(data, k, m - 1, lr);
      assert TrainSpec(data, k + m, lr) == EpochStep(data, TrainSpec(data, k + m - 1, lr), lr);
    }
  }
}
