// economy/market.py: the market component of a world and the bounded
// negative-feedback price controller update_prices.

module EconMarketData {
  import opened Base
  import opened EconInventory

  const DEFAULT_PRICE_CHANGE_FACTOR: real := 0.1
  const DEFAULT_MIN_PRICE_MULTIPLIER: real := 0.5
  const DEFAULT_MAX_PRICE_MULTIPLIER: real := 2.0

  datatype MarketV = MarketV(
    stock: Stock,
    prices: Dict<CommodityId, real>,
    targets: Dict<CommodityId, real>,
    factor: real,
    minMult: real,
    maxMult: real)

  class Market {
    /** The world holding this market (proof bookkeeping only). */
    ghost const owner: WorldId
    const inventory: Inventory
    var prices: Dict<CommodityId, real>
    var targets: Dict<CommodityId, real>
    var priceChangeFactor: real
    var minPriceMultiplier: real
    var maxPriceMultiplier: real

    /** Market(prices=..., targets=...) with a fresh inventory and the default parameters. */
    constructor (ghost owner: WorldId, prices: Dict<CommodityId, real>, targets: Dict<CommodityId, real>)
      ensures this.owner == owner && fresh(inventory) && inventory.owner == owner
      ensures V() == MarketV(map[], prices, targets, DEFAULT_PRICE_CHANGE_FACTOR,
                             DEFAULT_MIN_PRICE_MULTIPLIER, DEFAULT_MAX_PRICE_MULTIPLIER)
    {
      this.owner := owner;
      inventory := new Inventory(owner);
      this.prices := prices;
      this.targets := targets;
      priceChangeFactor := DEFAULT_PRICE_CHANGE_FACTOR;
      minPriceMultiplier := DEFAULT_MIN_PRICE_MULTIPLIER;
      maxPriceMultiplier := DEFAULT_MAX_PRICE_MULTIPLIER;
    }

    function V(): MarketV
      reads this, inventory
    {
      MarketV(inventory.quantities, prices, targets, priceChangeFactor, minPriceMultiplier, maxPriceMultiplier)
    }
  }
}

module EconMarket {
  import opened Base
  import opened EconInventory
  import opened EconMarketData
  import opened EconCommodities
  import opened WorldModel

  /** The default target given to a registry commodity that has none. */
  const DEFAULT_TARGET: real := 10.0
  /** The ratio used when the target is not positive. */
  const SURPLUS_RATIO: real := 10.0

  /** Stock over target when the target is positive, else 10.0. */
  function CoverRatio(qty: real, target: real): real {
    if target > 0.0 then qty / target else SURPLUS_RATIO
  }

  /** The unclamped price after one adjustment. */
  function RawPrice(price: real, qty: real, target: real, factor: real): real {
    price * (1.0 + (1.0 - CoverRatio(qty, target)) * factor)
  }

  /** An edge of the price band: min_price or max_price, the base price times a multiplier. */
  function Edge(base: real, mult: real): real { base * mult }

  /** The price after one adjustment, clamped into [base*minMult, base*maxMult]. */
  function NewPrice(price: real, qty: real, target: real, factor: real, base: real, minMult: real, maxMult: real): real {
    Clamp(RawPrice(price, qty, target, factor), Edge(base, minMult), Edge(base, maxMult))
  }

  /** With a non-negative base price and minMult <= maxMult, the band is not empty. */
  lemma BandOrdered(base: real, minMult: real, maxMult: real)
    requires base >= 0.0 && minMult <= maxMult
    ensures Edge(base, minMult) <= Edge(base, maxMult)
  {
    assert Edge(base, maxMult) - Edge(base, minMult) == base * (maxMult - minMult);
  }

  /** With a non-negative base price and minMult <= maxMult, the new price lies in the band. */
  lemma NewPriceWithinBounds(price: real, qty: real, target: real, factor: real, base: real, minMult: real, maxMult: real)
    requires base >= 0.0 && minMult <= maxMult
    ensures Edge(base, minMult) <= NewPrice(price, qty, target, factor, base, minMult, maxMult) <= Edge(base, maxMult)
  {
    var lo, hi := Edge(base, minMult), Edge(base, maxMult);
    BandOrdered(base, minMult, maxMult);
    assert lo <= hi;
    ClampWithin(RawPrice(price, qty, target, factor), lo, hi);
  }

  lemma ClampWithin(x: real, lo: real, hi: real)
    requires lo <= hi
    ensures lo <= Clamp(x, lo, hi) <= hi
  {
  }

  /** Unclamped, a shortage raises a positive price, a surplus lowers it, an exact match keeps it. */
  lemma NewPriceDirection(price: real, qty: real, target: real, factor: real, base: real, minMult: real, maxMult: real)
    requires price > 0.0 && factor > 0.0 && target > 0.0
    requires Edge(base, minMult) <= RawPrice(price, qty, target, factor) <= Edge(base, maxMult)
    ensures qty < target ==> NewPrice(price, qty, target, factor, base, minMult, maxMult) > price
    ensures qty > target ==> NewPrice(price, qty, target, factor, base, minMult, maxMult) < price
    ensures qty == target ==> NewPrice(price, qty, target, factor, base, minMult, maxMult) == price
  {
    var ratio := qty / target;
    RatioAgainstOne(qty, target);
    var adj := (1.0 - ratio) * factor;
    SignOfProduct(1.0 - ratio, factor);
    SignOfProduct(adj, price);
    var raw := RawPrice(price, qty, target, factor);
    assert raw == price * (1.0 + adj);
    assert raw == price + adj * price;
    assert NewPrice(price, qty, target, factor, base, minMult, maxMult) == raw;
  }

  /** q/t compared with 1 is q compared with t, for t > 0. */
  lemma RatioAgainstOne(q: real, t: real)
    requires t > 0.0
    ensures q < t ==> q / t < 1.0
    ensures q > t ==> q / t > 1.0
    ensures q == t ==> q / t == 1.0
  {
    var r := q / t;
    assert r * t == q;
    if r >= 1.0 { assert (r - 1.0) * t >= 0.0; }
    if r <= 1.0 { assert (1.0 - r) * t >= 0.0; }
  }

  /** The sign of a product with a positive factor. */
  lemma SignOfProduct(a: real, b: real)
    requires b > 0.0
    ensures a > 0.0 ==> a * b > 0.0
    ensures a < 0.0 ==> a * b < 0.0
    ensures a == 0.0 ==> a * b == 0.0
  {
  }

  /** A non-positive target always counts as a surplus. */
  lemma NonPositiveTargetLowersPrice(price: real, qty: real, target: real, factor: real)
    requires price > 0.0 && factor > 0.0 && target <= 0.0
    ensures RawPrice(price, qty, target, factor) < price
  {
    assert (1.0 - SURPLUS_RATIO) * factor < 0.0;
    assert price * ((1.0 - SURPLUS_RATIO) * factor) < 0.0;
  }

  /** The default target of a registry commodity. */
  function TargetDefault(c: Commodity): real { DEFAULT_TARGET }

  /** The default price of a registry commodity: its base price. */
  function PriceDefault(c: Commodity): real { c.basePrice }

  /** Half of the first loop: each listed commodity missing from d gets fill(c). */
  function Seeded(d: Dict<CommodityId, real>, cs: seq<Commodity>, fill: Commodity -> real): (r: Dict<CommodityId, real>)
    ensures d.Valid() ==> r.Valid()
    decreases |cs|
  {
    if cs == [] then d
    else
      var pre := Seeded(d, cs[..|cs| - 1], fill);
      var c := cs[|cs| - 1];
      if c.id in pre.vals then pre else pre.Put(c.id, fill(c))
  }

  /** Existing entries are kept and exactly the listed ids are added. */
  lemma {:induction false} SeededEntries(d: Dict<CommodityId, real>, cs: seq<Commodity>, fill: Commodity -> real, k: CommodityId)
    ensures k in d.vals ==> k in Seeded(d, cs, fill).vals && Seeded(d, cs, fill).vals[k] == d.vals[k]
    ensures k in Seeded(d, cs, fill).vals <==> k in d.vals || exists i :: 0 <= i < |cs| && cs[i].id == k
    decreases |cs|
  {
    if cs != [] {
      var pre := cs[..|cs| - 1];
      SeededEntries(d, pre, fill, k);
      if exists i :: 0 <= i < |pre| && pre[i].id == k {
        var i :| 0 <= i < |pre| && pre[i].id == k;
        assert cs[i].id == k;
      }
      if exists i :: 0 <= i < |cs| && cs[i].id == k {
        var i :| 0 <= i < |cs| && cs[i].id == k;
        if i < |pre| { assert pre[i].id == k; }
      }
    }
  }

  /** An added entry holds fill(c0) when every listing of its id is c0. */
  lemma {:induction false} SeededFill(d: Dict<CommodityId, real>, cs: seq<Commodity>, fill: Commodity -> real,
                                      k: CommodityId, c0: Commodity)
    requires k !in d.vals
    requires forall i :: 0 <= i < |cs| && cs[i].id == k ==> cs[i] == c0
    ensures k in Seeded(d, cs, fill).vals ==> Seeded(d, cs, fill).vals[k] == fill(c0)
    decreases |cs|
  {
    if cs != [] {
      var pre := cs[..|cs| - 1];
      forall i | 0 <= i < |pre| && pre[i].id == k ensures pre[i] == c0 {
        assert pre[i] == cs[i];
      }
      SeededFill(d, pre, fill, k, c0);
    }
  }

  /** A price law: the new price from the current price, stock, target and base price. */
  type Law = (real, real, real, real) -> real

  /** The law of update_prices for a market's factor and multipliers. */
  function MarketLaw(factor: real, minMult: real, maxMult: real): Law {
    (price, qty, target, base) => NewPrice(price, qty, target, factor, base, minMult, maxMult)
  }

  /** The second loop over target keys: every listed commodity is repriced by
      the law; a commodity the registry does not know raises. */
  function Repriced(m: MarketV, keys: seq<CommodityId>, reg: Dict<CommodityId, Commodity>, law: Law): Result<Dict<CommodityId, real>>
    decreases |keys|
  {
    if keys == [] then Ok(m.prices)
    else
      match Repriced(m, keys[..|keys| - 1], reg, law)
      case Fail(e) => Fail(e)
      case Ok(prices) =>
        var c := keys[|keys| - 1];
        if c !in reg.vals then Fail(UnknownCommodity(c))
        else
          var base := reg.vals[c].basePrice;
          Ok(prices.Put(c, law(prices.Get(c, base), Amount(m.stock, c, 0.0), m.targets.Get(c, 0.0), base)))
  }

  /** The second loop succeeds exactly when every key is registered; it then
      keeps the price dictionary well formed. */
  lemma {:induction false} RepricedOk(m: MarketV, keys: seq<CommodityId>, reg: Dict<CommodityId, Commodity>, law: Law)
    ensures Repriced(m, keys, reg, law).Ok? <==> forall k :: k in keys ==> k in reg.vals
    ensures Repriced(m, keys, reg, law).Ok? && m.prices.Valid() ==> Repriced(m, keys, reg, law).value.Valid()
    ensures Repriced(m, keys, reg, law).Fail? ==> exists k :: k in keys && k !in reg.vals &&
                                                   Repriced(m, keys, reg, law).error == UnknownCommodity(k)
    decreases |keys|
  {
    if keys != [] {
      var pre := keys[..|keys| - 1];
      RepricedOk(m, pre, reg, law);
      assert forall k :: k in keys ==> k in pre || k == keys[|keys| - 1];
    }
  }

  /** With distinct keys, each repriced commodity is adjusted from its own old
      price, and prices outside the keys are untouched. */
  lemma {:induction false} RepricedEntries(m: MarketV, keys: seq<CommodityId>, reg: Dict<CommodityId, Commodity>, law: Law, k: CommodityId)
    requires forall c :: c in keys ==> c in reg.vals
    requires Distinct(keys)
    ensures Repriced(m, keys, reg, law).Ok?
    ensures var r := Repriced(m, keys, reg, law).value;
      (k in keys ==> (k in r.vals && r.vals[k] ==
         law(m.prices.Get(k, reg.vals[k].basePrice), Amount(m.stock, k, 0.0), m.targets.Get(k, 0.0), reg.vals[k].basePrice))) &&
      (k !in keys ==> (k in r.vals <==> k in m.prices.vals) && (k in r.vals ==> r.vals[k] == m.prices.vals[k]))
    decreases |keys|
  {
    RepricedOk(m, keys, reg, law);
    if keys != [] {
      var pre := keys[..|keys| - 1];
      RepricedEntries(m, pre, reg, law, k);
      if k in keys && k != keys[|keys| - 1] {
        var i :| 0 <= i < |keys| && keys[i] == k;
        assert pre[i] == k;
      }
      if k == keys[|keys| - 1] {
        assert k !in pre;
      }
    }
  }

  /** The market after the first loop. */
  function SeededMarket(m: MarketV, reg: Dict<CommodityId, Commodity>): (m1: MarketV)
    requires reg.Valid()
    ensures m.targets.Valid() ==> m1.targets.Valid()
    ensures m1.stock == m.stock && m1.factor == m.factor && m1.minMult == m.minMult && m1.maxMult == m.maxMult
  {
    var cs := reg.Values();
    m.(targets := Seeded(m.targets, cs, TargetDefault), prices := Seeded(m.prices, cs, PriceDefault))
  }

  /** Both loops of update_prices on one market, under a given price law. */
  function UpdatedMarketWith(m: MarketV, reg: Dict<CommodityId, Commodity>, law: Law): (r: Result<MarketV>)
    requires reg.Valid()
    ensures r.Ok? ==> r.value == SeededMarket(m, reg).(prices := r.value.prices)
  {
    var m1 := SeededMarket(m, reg);
    match Repriced(m1, m1.targets.keys, reg, law)
    case Fail(e) => Fail(e)
    case Ok(prices) => Ok(m1.(prices := prices))
  }

  /** update_prices on one market: seed the registry defaults, then reprice every target. */
  function UpdatedMarket(m: MarketV, reg: Dict<CommodityId, Commodity>): (r: Result<MarketV>)
    requires reg.Valid()
    ensures r.Ok? ==> r.value.stock == m.stock && r.value.factor == m.factor &&
                      r.value.minMult == m.minMult && r.value.maxMult == m.maxMult
  {
    UpdatedMarketWith(m, reg, MarketLaw(m.factor, m.minMult, m.maxMult))
  }

  /** update_prices on a world value: a world without a market is left alone. */
  function UpdatedPrices(w: WorldV, reg: Dict<CommodityId, Commodity>): (r: Result<WorldV>)
    requires reg.Valid()
    ensures w.market.None? ==> r == Ok(w)
    ensures r.Ok? && w.market.Some? ==> r.value == w.(market := r.value.market) && r.value.market.Some?
  {
    if w.market.None? then Ok(w)
    else
      match UpdatedMarket(w.market.value, reg)
      case Fail(e) => Fail(e)
      case Ok(m) => Ok(w.(market := Some(m)))
  }

  /** The update fails exactly when some target commodity (after seeding) is not
      registered, and then reports UnknownCommodity for one of them. */
  lemma UpdatedMarketFails(m: MarketV, reg: Dict<CommodityId, Commodity>, law: Law)
    requires reg.Valid()
    ensures UpdatedMarketWith(m, reg, law).Ok? <==>
      forall k :: k in SeededMarket(m, reg).targets.keys ==> k in reg.vals
    ensures UpdatedMarketWith(m, reg, law).Fail? ==>
      exists k :: k !in reg.vals && UpdatedMarketWith(m, reg, law).error == UnknownCommodity(k)
  {
    var m1 := SeededMarket(m, reg);
    RepricedOk(m1, m1.targets.keys, reg, law);
  }

  /** Every registry commodity has a target and a price after a successful
      update, and a commodity with no target before gets target 10.0. */
  lemma UpdatedMarketSeeds(m: MarketV, reg: Dict<CommodityId, Commodity>, law: Law, k: CommodityId)
    requires reg.Valid() && IdsMatch(reg) && m.targets.Valid()
    requires UpdatedMarketWith(m, reg, law).Ok?
    requires k in reg.vals
    ensures k in UpdatedMarketWith(m, reg, law).value.targets.vals
    ensures k in UpdatedMarketWith(m, reg, law).value.prices.vals
    ensures k !in m.targets.vals ==> UpdatedMarketWith(m, reg, law).value.targets.vals[k] == DEFAULT_TARGET
  {
    var cs := reg.Values();
    var i :| 0 <= i < |reg.keys| && reg.keys[i] == k;
    assert cs[i].id == k;
    SeededEntries(m.targets, cs, TargetDefault, k);
    SeededEntries(m.prices, cs, PriceDefault, k);
    var m1 := SeededMarket(m, reg);
    assert k in m1.targets.vals && k in m1.prices.vals;
    if k !in m.targets.vals {
      ListingsAgree(reg, k);
      SeededFill(m.targets, cs, TargetDefault, k, reg.vals[k]);
    }
    var keys := m1.targets.keys;
    RepricedOk(m1, keys, reg, law);
    RepricedEntries(m1, keys, reg, law, k);
  }

  /** The updated price of a target commodity is the law applied to its
      seeded price, its stock, its target and its base price. */
  lemma UpdatedMarketAt(m: MarketV, reg: Dict<CommodityId, Commodity>, law: Law, k: CommodityId)
    requires reg.Valid() && m.targets.Valid()
    requires UpdatedMarketWith(m, reg, law).Ok?
    requires k in UpdatedMarketWith(m, reg, law).value.targets.vals
    ensures k in reg.vals && k in UpdatedMarketWith(m, reg, law).value.prices.vals
    ensures var m1 := SeededMarket(m, reg); var base := reg.vals[k].basePrice;
      UpdatedMarketWith(m, reg, law).value.prices.vals[k] ==
        law(m1.prices.Get(k, base), Amount(m.stock, k, 0.0), m1.targets.Get(k, 0.0), base)
  {
    var m1 := SeededMarket(m, reg);
    var keys := m1.targets.keys;
    assert k in keys;
    RepricedOk(m1, keys, reg, law);
    RepricedEntries(m1, keys, reg, law, k);
  }

  /** A commodity that had a target is repriced from its own old price (its
      base price when it had none), its stock and its old target. */
  lemma UpdatedMarketOwnPrice(m: MarketV, reg: Dict<CommodityId, Commodity>, law: Law, k: CommodityId)
    requires reg.Valid() && IdsMatch(reg) && m.targets.Valid()
    requires UpdatedMarketWith(m, reg, law).Ok?
    requires k in m.targets.vals
    ensures k in reg.vals && k in UpdatedMarketWith(m, reg, law).value.prices.vals
    ensures var base := reg.vals[k].basePrice;
      UpdatedMarketWith(m, reg, law).value.prices.vals[k] ==
        law(m.prices.Get(k, base), Amount(m.stock, k, 0.0), m.targets.vals[k], base)
  {
    var cs := reg.Values();
    SeededEntries(m.targets, cs, TargetDefault, k);
    var m1 := SeededMarket(m, reg);
    UpdatedMarketAt(m, reg, law, k);
    var base := reg.vals[k].basePrice;
    assert m1.targets.Get(k, 0.0) == m.targets.vals[k];
    if k in m.prices.vals {
      SeededEntries(m.prices, cs, PriceDefault, k);
    } else {
      ListingsAgree(reg, k);
      SeededEntries(m.prices, cs, PriceDefault, k);
      SeededFill(m.prices, cs, PriceDefault, k, reg.vals[k]);
    }
    assert m1.prices.Get(k, base) == m.prices.Get(k, base);
  }

  /** Whatever the price, stock and target, the law's price for this base price lies in [lo, hi]. */
  ghost predicate LawWithin(law: Law, base: real, lo: real, hi: real) {
    forall p, q, t :: lo <= law(p, q, t, base) <= hi
  }

  /** A law whose values for k's base price lie in [lo, hi] leaves k's price in [lo, hi]. */
  lemma UpdatedMarketWithin(m: MarketV, reg: Dict<CommodityId, Commodity>, law: Law, k: CommodityId, lo: real, hi: real)
    requires reg.Valid() && m.targets.Valid()
    requires UpdatedMarketWith(m, reg, law).Ok?
    requires k in UpdatedMarketWith(m, reg, law).value.targets.vals
    requires k in reg.vals
    requires LawWithin(law, reg.vals[k].basePrice, lo, hi)
    ensures k in UpdatedMarketWith(m, reg, law).value.prices.vals
    ensures lo <= UpdatedMarketWith(m, reg, law).value.prices.vals[k] <= hi
  {
    UpdatedMarketAt(m, reg, law, k);
    var m1 := SeededMarket(m, reg);
    var base := reg.vals[k].basePrice;
    var p, q, t := m1.prices.Get(k, base), Amount(m.stock, k, 0.0), m1.targets.Get(k, 0.0);
    assert lo <= law(p, q, t, base) <= hi;
  }

  /** For a non-negative base price and minMult <= maxMult, the market law
      always lands in [base*minMult, base*maxMult]. */
  lemma MarketLawBanded(factor: real, minMult: real, maxMult: real, base: real)
    requires base >= 0.0 && minMult <= maxMult
    ensures LawWithin(MarketLaw(factor, minMult, maxMult), base, Edge(base, minMult), Edge(base, maxMult))
  {
    forall p, q, t ensures Edge(base, minMult) <= MarketLaw(factor, minMult, maxMult)(p, q, t, base) <= Edge(base, maxMult) {
      NewPriceWithinBounds(p, q, t, factor, base, minMult, maxMult);
    }
  }

  /** After a successful update, every target commodity has a price within
      [base*minMult, base*maxMult] of its registry base price. */
  lemma UpdatedMarketBounded(m: MarketV, reg: Dict<CommodityId, Commodity>, r: MarketV, k: CommodityId)
    requires reg.Valid() && m.targets.Valid()
    requires UpdatedMarket(m, reg) == Ok(r)
    requires k in r.targets.vals
    requires m.minMult <= m.maxMult
    requires k in reg.vals && reg.vals[k].basePrice >= 0.0
    ensures k in r.prices.vals
    ensures Edge(reg.vals[k].basePrice, m.minMult) <= r.prices.vals[k] <= Edge(reg.vals[k].basePrice, m.maxMult)
  {
    var base := reg.vals[k].basePrice;
    MarketLawBanded(m.factor, m.minMult, m.maxMult, base);
    UpdatedMarketWithin(m, reg, MarketLaw(m.factor, m.minMult, m.maxMult), k, Edge(base, m.minMult), Edge(base, m.maxMult));
  }

  /** Each commodity that had a target moves from its own old price by the
      update_prices rule. */
  lemma UpdatedMarketPrice(m: MarketV, reg: Dict<CommodityId, Commodity>, k: CommodityId)
    requires reg.Valid() && IdsMatch(reg) && m.targets.Valid()
    requires UpdatedMarket(m, reg).Ok?
    requires k in m.targets.vals
    ensures k in reg.vals && k in UpdatedMarket(m, reg).value.prices.vals
    ensures var base := reg.vals[k].basePrice;
      UpdatedMarket(m, reg).value.prices.vals[k] ==
        NewPrice(m.prices.Get(k, base), Amount(m.stock, k, 0.0), m.targets.vals[k],
                 m.factor, base, m.minMult, m.maxMult)
  {
    UpdatedMarketOwnPrice(m, reg, MarketLaw(m.factor, m.minMult, m.maxMult), k);
  }

  /** With every commodity under its own id, each listing of id k is the registered one. */
  lemma ListingsAgree(reg: Dict<CommodityId, Commodity>, k: CommodityId)
    requires reg.Valid() && IdsMatch(reg) && k in reg.vals
    ensures forall i :: 0 <= i < |reg.Values()| && reg.Values()[i].id == k ==> reg.Values()[i] == reg.vals[k]
  {
    var cs := reg.Values();
    forall i | 0 <= i < |cs| && cs[i].id == k ensures cs[i] == reg.vals[k] {
      assert cs[i] == reg.vals[reg.keys[i]];
    }
  }

  lemma SeededNext(d: Dict<CommodityId, real>, cs: seq<Commodity>, i: nat, fill: Commodity -> real)
    requires i < |cs|
    ensures var pre := Seeded(d, cs[..i], fill);
      Seeded(d, cs[..i + 1], fill) == if cs[i].id in pre.vals then pre else pre.Put(cs[i].id, fill(cs[i]))
  {
    assert cs[..i + 1][..i] == cs[..i];
  }

  /** The first loop of update_prices, in place. */
  method SeedDefaults(market: Market, registry: CommodityRegistry)
    requires registry.commodities.Valid()
    modifies market
    ensures market.V() == SeededMarket(old(market.V()), registry.commodities)
  {
    ghost var m0 := market.V();
    var cs := registry.AllCommodities();
    var i := 0;
    while i < |cs|
      invariant 0 <= i <= |cs|
      invariant market.targets == Seeded(m0.targets, cs[..i], TargetDefault)
      invariant market.prices == Seeded(m0.prices, cs[..i], PriceDefault)
      invariant market.priceChangeFactor == m0.factor && market.minPriceMultiplier == m0.minMult
      invariant market.maxPriceMultiplier == m0.maxMult
    {
      SeededNext(m0.targets, cs, i, TargetDefault);
      SeededNext(m0.prices, cs, i, PriceDefault);
      SeedOne(market, cs[i]);
      i := i + 1;
    }
    assert cs[..i] == cs;
  }

  /** One commodity of the first loop: a missing target or price gets its default. */
  method SeedOne(market: Market, c: Commodity)
    modifies market
    ensures market.targets == if c.id in old(market.targets.vals) then old(market.targets)
                              else old(market.targets).Put(c.id, TargetDefault(c))
    ensures market.prices == if c.id in old(market.prices.vals) then old(market.prices)
                             else old(market.prices).Put(c.id, PriceDefault(c))
    ensures market.priceChangeFactor == old(market.priceChangeFactor)
    ensures market.minPriceMultiplier == old(market.minPriceMultiplier)
    ensures market.maxPriceMultiplier == old(market.maxPriceMultiplier)
  {
    if c.id !in market.targets.vals {
      market.targets := market.targets.Put(c.id, TargetDefault(c));
    }
    if c.id !in market.prices.vals {
      market.prices := market.prices.Put(c.id, PriceDefault(c));
    }
  }

  /** The second loop of update_prices, in place: every target is repriced in
      target order; an unregistered commodity raises. */
  method RepriceTargets(market: Market, registry: CommodityRegistry, law: Law) returns (r: Result<()>)
    modifies market
    ensures r.Ok? <==> Repriced(old(market.V()), old(market.targets.keys), registry.commodities, law).Ok?
    ensures r.Ok? ==> market.V() == old(market.V()).(prices := Repriced(old(market.V()), old(market.targets.keys), registry.commodities, law).value)
  {
    ghost var m1 := market.V();
    var keys := market.targets.keys;
    var j := 0;
    while j < |keys|
      invariant 0 <= j <= |keys|
      invariant Repriced(m1, keys[..j], registry.commodities, law) == Ok(market.prices)
      invariant market.V() == m1.(prices := market.prices)
    {
      assert keys[..j + 1][..j] == keys[..j];
      var c := keys[j];
      var qty := market.inventory.Get(c, 0.0);
      var comm := registry.Get(c);
      if comm.Fail? {
        RepricedFails(m1, keys, registry.commodities, law, j + 1);
        return Fail(comm.error);
      }
      var base := comm.value.basePrice;
      var price := market.prices.Get(c, base);
      var target := market.targets.Get(c, 0.0);
      market.prices := market.prices.Put(c, law(price, qty, target, base));
      j := j + 1;
    }
    assert keys[..j] == keys;
    return Ok(());
  }

  /** One market repriced in place; its inventory is only read. */
  method Reprice(market: Market, registry: CommodityRegistry) returns (r: Result<()>)
    requires registry.commodities.Valid()
    modifies market
    ensures r.Ok? <==> UpdatedMarket(old(market.V()), registry.commodities).Ok?
    ensures r.Ok? ==> market.V() == UpdatedMarket(old(market.V()), registry.commodities).value
  {
    SeedDefaults(market, registry);
    var law := MarketLaw(market.priceChangeFactor, market.minPriceMultiplier, market.maxPriceMultiplier);
    r := RepriceTargets(market, registry, law);
  }

  /** update_prices(world, state): only the world's market changes. */
  method UpdatePrices(world: World, registry: CommodityRegistry) returns (r: Result<()>)
    requires world.Valid() && registry.commodities.Valid()
    modifies world.market
    ensures world.Valid() && world.market == old(world.market)
    ensures r.Ok? <==> UpdatedPrices(old(world.V()), registry.commodities).Ok?
    ensures r.Ok? ==> world.V() == UpdatedPrices(old(world.V()), registry.commodities).value
  {
    if world.market == null {
      return Ok(());
    }
    r := Reprice(world.market, registry);
  }

  /** A raising key makes the whole second loop raise. */
  lemma {:induction false} RepricedFails(m: MarketV, keys: seq<CommodityId>, reg: Dict<CommodityId, Commodity>, law: Law, j: nat)
    requires 0 < j <= |keys|
    requires keys[j - 1] !in reg.vals
    ensures Repriced(m, keys, reg, law).Fail?
  {
    RepricedOk(m, keys, reg, law);
    assert keys[j - 1] in keys;
  }
}
