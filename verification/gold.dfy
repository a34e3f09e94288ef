/** The gold portfolio screen: holdings of 22- and 24-carat gold and Reşat
    coins valued at unit prices, and the two input handlers. A numeric
    input field hands over either a number or nothing; nothing (the
    source's NaN from `parseFloat` of an empty field) reads as 0. */
module Gold {
  import opened Wrappers
  import opened Types

  datatype GoldField = G22 | G24 | Resat

  function Quantity(p: GoldPortfolio, f: GoldField): real {
    match f
    case G22 => p.g22
    case G24 => p.g24
    case Resat => p.resat
  }

  function Price(prices: GoldPrices, f: GoldField): real {
    match f
    case G22 => prices.g22
    case G24 => prices.g24
    case Resat => prices.resat
  }

  /** The portfolio value shown at the top. With no negative holding or
      price it is never negative, and no holdings are worth nothing
      whatever the prices. */
  function TotalValue(p: GoldPortfolio, prices: GoldPrices): (r: real)
    ensures (&& p.g22 >= 0.0 && p.g24 >= 0.0 && p.resat >= 0.0
             && prices.g22 >= 0.0 && prices.g24 >= 0.0 && prices.resat >= 0.0) ==> r >= 0.0
    ensures p == GoldPortfolio(0.0, 0.0, 0.0) ==> r == 0.0
  {
    p.g22 * prices.g22 + p.g24 * prices.g24 + p.resat * prices.resat
  }

  /** Typing into one holding's field sets that holding and no other. */
  function HandlePortfolioChange(p: GoldPortfolio, f: GoldField, input: Option<real>): (r: GoldPortfolio)
    ensures Quantity(r, f) == input.GetOr(0.0)
    ensures forall g: GoldField :: g != f ==> Quantity(r, g) == Quantity(p, g)
  {
    var v := input.GetOr(0.0);
    match f
    case G22 => p.(g22 := v)
    case G24 => p.(g24 := v)
    case Resat => p.(resat := v)
  }

  /** Typing into one price field sets that price, keeps the others and
      stamps the change with the time `now`. */
  function HandlePriceChange(prices: GoldPrices, f: GoldField, input: Option<real>, now: string): (r: GoldPrices)
    ensures Price(r, f) == input.GetOr(0.0)
    ensures forall g: GoldField :: g != f ==> Price(r, g) == Price(prices, g)
    ensures r.lastUpdated == now
  {
    var v := input.GetOr(0.0);
    var changed :=
      match f
      case G22 => prices.(g22 := v)
      case G24 => prices.(g24 := v)
      case Resat => prices.(resat := v);
    changed.(lastUpdated := now)
  }

  /** Changing one holding moves the total by the change in that holding
      times its price. */
  lemma PortfolioChangeDelta(p: GoldPortfolio, prices: GoldPrices, f: GoldField, input: Option<real>)
    ensures TotalValue(HandlePortfolioChange(p, f, input), prices)
         == TotalValue(p, prices) + (input.GetOr(0.0) - Quantity(p, f)) * Price(prices, f)
  {
  }

  /** Changing one price moves the total by the change in that price times
      the holding. */
  lemma PriceChangeDelta(p: GoldPortfolio, prices: GoldPrices, f: GoldField, input: Option<real>, now: string)
    ensures TotalValue(p, HandlePriceChange(prices, f, input, now))
         == TotalValue(p, prices) + Quantity(p, f) * (input.GetOr(0.0) - Price(prices, f))
  {
  }
}
