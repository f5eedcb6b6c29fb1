// Min-max scaling of one column of values into [0, 1], and of a whole
// dataset column by column.

module Normalization {
  import opened Houses

  datatype Option<T> = None | Some(value: T)

  /** The smallest element of a non-empty list (Kotlin's `min()`). */
  function MinOf(values: seq<real>): (r: real)
    requires |values| > 0
    ensures r in values
    ensures forall i :: 0 <= i < |values| ==> r <= values[i]
  {
    if |values| == 1 then values[0]
    else
      var rest := MinOf(values[1..]);
      if values[0] <= rest then values[0] else rest
  }

  /** The largest element of a non-empty list (Kotlin's `max()`). */
  function MaxOf(values: seq<real>): (r: real)
    requires |values| > 0
    ensures r in values
    ensures forall i :: 0 <= i < |values| ==> values[i] <= r
  {
    if |values| == 1 then values[0]
    else
      var rest := MaxOf(values[1..]);
      if rest <= values[0] then values[0] else rest
  }

  /** A fitted scale: the range [min, max] of some values and its length. */
  datatype Scale = Scale(min: real, max: real, delta: real) {

    /** Maps a value of the original scale to the unit scale, where min is 0
        and max is 1. Undoing it with Denormalize gives the value back. */
    function Normalize(value: real): (r: real)
      requires delta != 0.0
      ensures Denormalize(r) == value
    {
      (value - min) / delta
    }

    /** Maps a value of the unit scale back to the original scale. */
    function Denormalize(value: real): real
    {
      value * delta + min
    }
  }

  /** Fits a scale to a list of values (the constructor of the Kotlin class
      Scale). An empty list has no minimum: `values.min()` throws, which is
      the None result here. */
  function Fit(values: seq<real>): (r: Option<Scale>)
    ensures r.None? <==> |values| == 0
    ensures r.Some? ==>
      && r.value.min in values
      && r.value.max in values
      && r.value.delta == r.value.max - r.value.min
      && forall i :: 0 <= i < |values| ==> r.value.min <= values[i] <= r.value.max
  {
    if |values| == 0 then None
    else
      var min := MinOf(values);
      var max := MaxOf(values);
      Some(Scale(min, max, max - min))
  }

  /** A list spreads when it holds two different values, so that its scale
      has a positive length. */
  predicate Spread(values: seq<real>)
  {
    exists i, j :: 0 <= i < |values| && 0 <= j < |values| && values[i] != values[j]
  }

  /** A fitted scale never has a negative length, and its length is positive
      exactly when the values spread. */
  lemma FitDeltaPositiveIffSpread(values: seq<real>)
    requires |values| > 0
    ensures Fit(values).value.delta >= 0.0
    ensures Fit(values).value.delta > 0.0 <==> Spread(values)
  {
  }

  /** The inverse round trip: normalizing a denormalized value gives it back,
      for every real, inside [0, 1] or not. */
  lemma NormalizeDenormalize(s: Scale, u: real)
    requires s.delta != 0.0
    ensures s.Normalize(s.Denormalize(u)) == u
  {
  }

  /** The least value of a spread list normalizes to 0 and the greatest to 1. */
  lemma NormalizeEndpoints(values: seq<real>)
    requires Spread(values)
    ensures Fit(values).Some?
    ensures Fit(values).value.delta > 0.0
    ensures Fit(values).value.Normalize(MinOf(values)) == 0.0
    ensures Fit(values).value.Normalize(MaxOf(values)) == 1.0
  {
    FitDeltaPositiveIffSpread(values);
    ScaleEndpoints(Fit(values).value);
  }

  /** A scale of positive length sends its min to 0 and its max to 1. */
  lemma ScaleEndpoints(s: Scale)
    requires s.delta != 0.0 && s.delta == s.max - s.min
    ensures s.Normalize(s.min) == 0.0 && s.Normalize(s.max) == 1.0
  {
    assert s.Normalize(s.max) == s.delta / s.delta;
  }

  /** A value inside the fitted range normalizes into [0, 1]. */
  lemma NormalizeIntoUnit(s: Scale, value: real)
    requires s.delta > 0.0 && s.delta == s.max - s.min
    requires s.min <= value <= s.max
    ensures 0.0 <= s.Normalize(value) <= 1.0
  {
  }

  /** Every element of a spread list normalizes into [0, 1]. */
  lemma FittedValuesIntoUnit(values: seq<real>, i: int)
    requires Spread(values)
    requires 0 <= i < |values|
    ensures Fit(values).Some? && Fit(values).value.delta > 0.0
    ensures 0.0 <= Fit(values).value.Normalize(values[i]) <= 1.0
  {
    FitDeltaPositiveIffSpread(values);
    NormalizeIntoUnit(Fit(values).value, values[i]);
  }

  /** The scales fitted to a dataset, with the dataset scaled through them. */
  datatype NormalizedData = NormalizedData(areas: Scale, prices: Scale, data: seq<House>)

  /** Fits one scale to the areas and one to the prices, then maps every house
      through both (the extension `List<House>.normalize()`). An empty list
      makes the fit throw, which is the None result; a column with a single
      repeated value would divide by zero and is excluded. */
  function NormalizeHouses(houses: seq<House>): (r: Option<NormalizedData>)
    requires houses == [] || (Spread(Areas(houses)) && Spread(Prices(houses)))
    ensures r.None? <==> houses == []
    ensures r.Some? ==>
      && Fit(Areas(houses)) == Some(r.value.areas)
      && Fit(Prices(houses)) == Some(r.value.prices)
      && r.value.areas.delta > 0.0
      && r.value.prices.delta > 0.0
      && |r.value.data| == |houses|
      && forall i :: 0 <= i < |houses| ==>
           r.value.data[i] == House(r.value.areas.Normalize(houses[i].area),
                                    r.value.prices.Normalize(houses[i].price))
  {
    if houses == [] then None
    else
      FitDeltaPositiveIffSpread(Areas(houses));
      FitDeltaPositiveIffSpread(Prices(houses));
      var areas := Fit(Areas(houses)).value;
      var prices := Fit(Prices(houses)).value;
      Some(NormalizedData(areas, prices,
        seq(|houses|, i requires 0 <= i < |houses| =>
          House(areas.Normalize(houses[i].area), prices.Normalize(houses[i].price)))))
  }

  /** Normalizing a dataset keeps its length and order and puts every area and
      every price into [0, 1]; denormalizing gives back the original house. */
  lemma NormalizedHousesIntoUnit(houses: seq<House>)
    requires houses != [] && Spread(Areas(houses)) && Spread(Prices(houses))
    ensures NormalizeHouses(houses).Some?
    ensures forall i :: 0 <= i < |houses| ==>
      var n := NormalizeHouses(houses).value;
      && 0.0 <= n.data[i].area <= 1.0
      && 0.0 <= n.data[i].price <= 1.0
      && n.areas.Denormalize(n.data[i].area) == houses[i].area
      && n.prices.Denormalize(n.data[i].price) == houses[i].price
  {
    forall i | 0 <= i < |houses|
      ensures 0.0 <= NormalizeHouses(houses).value.data[i].area <= 1.0
      ensures 0.0 <= NormalizeHouses(houses).value.data[i].price <= 1.0
    {
      FittedValuesIntoUnit(Areas(houses), i);
      FittedValuesIntoUnit(Prices(houses), i);
    }
  }

  /** The scale of 10, 20, 30 runs from 10 to 30: it sends 10 to 0 and 30 to 1. */
  lemma ScaleExampleEndpoints()
    ensures Fit([10.0, 20.0, 30.0]) == Some(Scale(10.0, 30.0, 20.0))
    ensures Fit([10.0, 20.0, 30.0]).value.Normalize(10.0) == 0.0
    ensures Fit([10.0, 20.0, 30.0]).value.Normalize(30.0) == 1.0
  {
    var values := [10.0, 20.0, 30.0];
    assert MinOf(values) == 10.0 by {
      assert values[1..] == [20.0, 30.0] && values[1..][1..] == [30.0];
    }
    assert MaxOf(values) == 30.0 by {
      assert values[1..] == [20.0, 30.0] && values[1..][1..] == [30.0];
    }
    ScaleEndpoints(Scale(10.0, 30.0, 20.0));
  }

  /** The scale of 5, 15 sends 10 to 0.5, and 0.5 back to 10. */
  lemma ScaleExampleRoundTrip()
    ensures Fit([5.0, 15.0]) == Some(Scale(5.0, 15.0, 10.0))
    ensures Fit([5.0, 15.0]).value.Normalize(10.0) == 0.5
    ensures Fit([5.0, 15.0]).value.Denormalize(0.5) == 10.0
  {
    var values := [5.0, 15.0];
    assert values[1..] == [15.0];
  }

  /** The six sample houses normalize into the unit square. */
  lemma SampleHousesIntoUnit()
    ensures Spread(Areas(SampleHouses)) && Spread(Prices(SampleHouses))
    ensures NormalizeHouses(SampleHouses).Some?
    ensures forall i :: 0 <= i < |SampleHouses| ==>
      var n := NormalizeHouses(SampleHouses).value;
      0.0 <= n.data[i].area <= 1.0 && 0.0 <= n.data[i].price <= 1.0
  {
    assert Areas(SampleHouses)[0] != Areas(SampleHouses)[1];
    assert Prices(SampleHouses)[0] != Prices(SampleHouses)[1];
    NormalizedHousesIntoUnit(SampleHouses);
  }
}
