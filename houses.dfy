// Houses: the labelled samples the regression is fitted to.

module Houses {

  /** A house: its area in square metres and its price in euros. After
      normalization the same record carries the two values scaled into [0, 1]. */
  datatype House = House(area: real, price: real)

  /** The six-house dataset the program trains on. There is no house between
      95 and 140 square metres, and a larger gap up to 220. */
  const SampleHouses: seq<House> := [
    House(35.0, 120000.0),
    House(52.0, 155000.0),
    House(70.0, 210000.0),
    House(95.0, 260000.0),
    House(140.0, 340000.0),
    House(220.0, 480000.0)
  ]

  /** The area column of a list of houses. */
  function Areas(houses: seq<House>): seq<real>
  {
    seq(|houses|, i requires 0 <= i < |houses| => houses[i].area)
  }

  /** The price column of a list of houses. */
  function Prices(houses: seq<House>): seq<real>
  {
    seq(|houses|, i requires 0 <= i < |houses| => houses[i].price)
  }
}
