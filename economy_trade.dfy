// economy/trade.py: the arbitrage search along lanes and the per-tick trade
// stage (acceptance under lane capacity, then delivery of arrived shipments).

module EconTrade {
  import opened Base
  import opened Docs
  import opened EconInventory
  import opened EconMarketData
  import opened EconCommodities
  import opened WorldModel
  import opened LogisticsShipping
  import opened LogisticsCapacity
  import opened CoreState

  /** Minimum profit per unit for a trade. */
  const TRADE_THRESHOLD: real := 0.1
  /** Largest quantity one candidate carries. */
  const MAX_TRADE: real := 10.0
  const DISTANCE_COST: real := 0.01
  const HAZARD_COST: real := 0.05

  type Worlds = Dict<WorldId, WorldV>
  type Lanes = Dict<LaneId, LaneV>

  /** base_price * (distance*0.01 + hazard*0.05) */
  function ShippingCost(base: real, distance: real, hazard: real): real {
    base * (distance * DISTANCE_COST + hazard * HAZARD_COST)
  }

  /** The quantity offered from a stock: min(stock, 10). */
  function OfferedQuantity(stock: Stock, c: CommodityId): (q: real)
    ensures q <= MAX_TRADE && q <= Amount(stock, c, 0.0)
    ensures q == MAX_TRADE || q == Amount(stock, c, 0.0)
  {
    Min(Amount(stock, c, 0.0), MAX_TRADE)
  }

  /** The shipment from src to dst along lane, if buying at pSrc and selling at
      pDst clears the threshold after shipping and src has some stock. */
  function Offer(src: WorldV, dst: WorldV, lane: LaneV, c: Commodity, pSrc: real, pDst: real, tick: int): (r: seq<Shipment>)
    requires src.market.Some?
    ensures |r| <= 1
  {
    if pDst - pSrc - ShippingCost(c.basePrice, lane.distance, lane.hazard) > TRADE_THRESHOLD then
      var qty := OfferedQuantity(src.market.value.stock, c.id);
      if qty > 0.0 then [Shipment(c.id, qty, src.id, dst.id, tick + RoundHalfEven(lane.distance), Some(lane.id))] else []
    else []
  }

  /** Both directions of one lane for one commodity; nothing when an endpoint is
      not a world, has no market, or either price is missing. */
  function PairOffers(worlds: Worlds, lane: LaneV, c: Commodity, tick: int): seq<Shipment> {
    if lane.a !in worlds.vals || lane.b !in worlds.vals then []
    else
      var wa, wb := worlds.vals[lane.a], worlds.vals[lane.b];
      if wa.market.None? || wb.market.None? then []
      else if c.id !in wa.market.value.prices.vals || c.id !in wb.market.value.prices.vals then []
      else
        var pa, pb := wa.market.value.prices.vals[c.id], wb.market.value.prices.vals[c.id];
        Offer(wa, wb, lane, c, pa, pb, tick) + Offer(wb, wa, lane, c, pb, pa, tick)
  }

  /** The shipments produced for each item of xs, concatenated in order. */
  function ConcatMap<A, T>(xs: seq<A>, f: A -> seq<T>): seq<T>
    decreases |xs|
  {
    if xs == [] then [] else ConcatMap(xs[..|xs| - 1], f) + f(xs[|xs| - 1])
  }

  lemma {:induction false} ConcatMapMembers<A, T>(xs: seq<A>, f: A -> seq<T>, t: T)
    ensures t in ConcatMap(xs, f) <==> exists i :: 0 <= i < |xs| && t in f(xs[i])
    decreases |xs|
  {
    if xs != [] {
      var pre := xs[..|xs| - 1];
      ConcatMapMembers(pre, f, t);
      if exists i :: 0 <= i < |xs| && t in f(xs[i]) {
        var i :| 0 <= i < |xs| && t in f(xs[i]);
        if i < |pre| {
          assert pre[i] == xs[i];
        }
      }
      if exists i :: 0 <= i < |pre| && t in f(pre[i]) {
        var i :| 0 <= i < |pre| && t in f(pre[i]);
        assert xs[i] == pre[i];
      }
    }
  }

  /** The commodity loop for one lane. */
  function LaneOffers(worlds: Worlds, lane: LaneV, cs: seq<Commodity>, tick: int): seq<Shipment> {
    ConcatMap(cs, c => PairOffers(worlds, lane, c, tick))
  }

  /** build_candidate_trades(state): lanes in order, and for each lane the
      registry's commodities in order, A to B before B to A. */
  function CandidateTrades(worlds: Worlds, lanes: Lanes, commodities: Dict<CommodityId, Commodity>, tick: int): seq<Shipment>
    requires lanes.Valid() && commodities.Valid()
  {
    ConcatMap(lanes.Values(), lane => LaneOffers(worlds, lane, commodities.Values(), tick))
  }

  /** Each candidate is an offer of some lane for some registered commodity. */
  lemma CandidateTradesSound(worlds: Worlds, lanes: Lanes, commodities: Dict<CommodityId, Commodity>, tick: int, s: Shipment)
    requires lanes.Valid() && commodities.Valid()
    requires s in CandidateTrades(worlds, lanes, commodities, tick)
    ensures exists l, c :: l in lanes.vals && c in commodities.vals && s in PairOffers(worlds, lanes.vals[l], commodities.vals[c], tick)
  {
    var ls, cs := lanes.Values(), commodities.Values();
    var f := lane => LaneOffers(worlds, lane, cs, tick);
    ConcatMapMembers(ls, f, s);
    var i :| 0 <= i < |ls| && s in f(ls[i]);
    var g := c => PairOffers(worlds, ls[i], c, tick);
    ConcatMapMembers(cs, g, s);
    var j :| 0 <= j < |cs| && s in g(cs[j]);
    var l, c := lanes.keys[i], commodities.keys[j];
    assert l in lanes.vals && c in commodities.vals && s in PairOffers(worlds, lanes.vals[l], commodities.vals[c], tick);
  }

  /** Each offer of a lane for a registered commodity is a candidate. */
  lemma CandidateTradesComplete(worlds: Worlds, lanes: Lanes, commodities: Dict<CommodityId, Commodity>, tick: int,
                                l: LaneId, c: CommodityId, s: Shipment)
    requires lanes.Valid() && commodities.Valid()
    requires l in lanes.vals && c in commodities.vals && s in PairOffers(worlds, lanes.vals[l], commodities.vals[c], tick)
    ensures s in CandidateTrades(worlds, lanes, commodities, tick)
  {
    var ls, cs := lanes.Values(), commodities.Values();
    var i :| 0 <= i < |lanes.keys| && lanes.keys[i] == l;
    var j :| 0 <= j < |commodities.keys| && commodities.keys[j] == c;
    var g := c => PairOffers(worlds, ls[i], c, tick);
    assert s in g(cs[j]);
    ConcatMapMembers(cs, g, s);
    var f := lane => LaneOffers(worlds, lane, cs, tick);
    assert s in f(ls[i]);
    ConcatMapMembers(ls, f, s);
  }

  /** What one pair offer carries: a shipment between the lane's endpoints, both
      worlds with markets, between 0 and 10 units and no more than the source holds. */
  lemma PairOfferFacts(worlds: Worlds, lane: LaneV, c: Commodity, tick: int, s: Shipment)
    requires forall w :: w in worlds.vals ==> worlds.vals[w].id == w
    requires s in PairOffers(worlds, lane, c, tick)
    ensures s.laneId == Some(lane.id) && s.commodity == c.id && s.etaTick == tick + RoundHalfEven(lane.distance)
    ensures (s.source == lane.a && s.destination == lane.b) || (s.source == lane.b && s.destination == lane.a)
    ensures s.source in worlds.vals && worlds.vals[s.source].market.Some?
    ensures s.destination in worlds.vals && worlds.vals[s.destination].market.Some?
    ensures 0.0 < s.quantity <= MAX_TRADE && s.quantity <= Amount(worlds.vals[s.source].market.value.stock, s.commodity, 0.0)
  {
  }

  /** Every candidate rides a known lane between its two endpoint worlds, both
      with markets, carries a registered commodity, offers between 0 and 10
      units and no more than the source holds, and arrives round(distance)
      ticks from now. */
  lemma CandidateFacts(worlds: Worlds, lanes: Lanes, commodities: Dict<CommodityId, Commodity>, tick: int, s: Shipment)
    requires lanes.Valid() && commodities.Valid() && IdsMatch(commodities)
    requires forall w :: w in worlds.vals ==> worlds.vals[w].id == w
    requires forall l :: l in lanes.vals ==> lanes.vals[l].id == l
    requires s in CandidateTrades(worlds, lanes, commodities, tick)
    ensures s.laneId.Some? && s.laneId.value in lanes.vals
    ensures var lane := lanes.vals[s.laneId.value];
      ((s.source == lane.a && s.destination == lane.b) || (s.source == lane.b && s.destination == lane.a)) &&
      s.etaTick == tick + RoundHalfEven(lane.distance)
    ensures s.source in worlds.vals && worlds.vals[s.source].market.Some?
    ensures s.destination in worlds.vals && worlds.vals[s.destination].market.Some?
    ensures s.commodity in commodities.vals
    ensures 0.0 < s.quantity <= MAX_TRADE && s.quantity <= Amount(worlds.vals[s.source].market.value.stock, s.commodity, 0.0)
  {
    CandidateTradesSound(worlds, lanes, commodities, tick, s);
    var l, c :| l in lanes.vals && c in commodities.vals && s in PairOffers(worlds, lanes.vals[l], commodities.vals[c], tick);
    PairOfferFacts(worlds, lanes.vals[l], commodities.vals[c], tick, s);
  }

  /** The A-to-B candidate of a lane, for a commodity priced in both markets,
      exists exactly when the price gap beats shipping by more than 0.1 and A
      has some stock; it carries min(stock, 10). */
  lemma OfferExactly(worlds: Worlds, lane: LaneV, c: Commodity, tick: int)
    requires lane.a in worlds.vals && lane.b in worlds.vals
    requires worlds.vals[lane.a].market.Some? && worlds.vals[lane.b].market.Some?
    requires c.id in worlds.vals[lane.a].market.value.prices.vals && c.id in worlds.vals[lane.b].market.value.prices.vals
    ensures var wa, wb := worlds.vals[lane.a], worlds.vals[lane.b];
      var pa, pb := wa.market.value.prices.vals[c.id], wb.market.value.prices.vals[c.id];
      var qty := OfferedQuantity(wa.market.value.stock, c.id);
      var s := Shipment(c.id, qty, wa.id, wb.id, tick + RoundHalfEven(lane.distance), Some(lane.id));
      (pb - pa - ShippingCost(c.basePrice, lane.distance, lane.hazard) > TRADE_THRESHOLD && qty > 0.0 ==>
        s in PairOffers(worlds, lane, c, tick)) &&
      (s in PairOffers(worlds, lane, c, tick) && wa.id != wb.id ==>
        pb - pa - ShippingCost(c.basePrice, lane.distance, lane.hazard) > TRADE_THRESHOLD && qty > 0.0)
  {
  }

  /** A world with defaults and only a market holding one stock and one price. */
  function MarketWorld(id: WorldId, c: CommodityId, stock: real, price: real, minMult: real): WorldV {
    WorldV(id, Str(id), 1.0, 1.0, 1.0, [], 0.0, 0.0, 0.0, 0.0, [],
           Some(MarketV(map[c := stock], Dict([c], map[c := price]), EmptyDict(), 0.1, minMult, 2.0)),
           None, None, None, None)
  }

  /** Food at 8 on w1 (5 in stock) and 15 on w2, one lane of distance 1: the one
      candidate carries the 5 units of food from w1 to w2, arriving next tick. */
  lemma TradeScenario()
    ensures var food := Commodity("food", Str("Food"), 10.0, Bool(true));
      var minerals := Commodity("minerals", Str("Minerals"), 5.0, Bool(false));
      var worlds := Dict(["w1", "w2"], map["w1" := MarketWorld("w1", "food", 5.0, 8.0, 0.5),
                                           "w2" := MarketWorld("w2", "food", 50.0, 15.0, 0.9)]);
      var lanes := Dict(["l1-2"], map["l1-2" := LaneV("l1-2", "w1", "w2", 1.0, 0.0, 100.0)]);
      var reg := Dict(["food", "minerals"], map["food" := food, "minerals" := minerals]);
      lanes.Valid() && reg.Valid() &&
      CandidateTrades(worlds, lanes, reg, 0) == [Shipment("food", 5.0, "w1", "w2", 1, Some("l1-2"))]
  {
    var food := Commodity("food", Str("Food"), 10.0, Bool(true));
    var minerals := Commodity("minerals", Str("Minerals"), 5.0, Bool(false));
    var w1, w2 := MarketWorld("w1", "food", 5.0, 8.0, 0.5), MarketWorld("w2", "food", 50.0, 15.0, 0.9);
    var worlds := Dict(["w1", "w2"], map["w1" := w1, "w2" := w2]);
    var lane := LaneV("l1-2", "w1", "w2", 1.0, 0.0, 100.0);
    var lanes := Dict(["l1-2"], map["l1-2" := lane]);
    var reg := Dict(["food", "minerals"], map["food" := food, "minerals" := minerals]);
    var cs := reg.Values();
    assert cs == [food, minerals];
    assert lanes.Values() == [lane];
    assert ShippingCost(10.0, 1.0, 0.0) == 0.1;
    assert RoundHalfEven(1.0) == 1;
    assert OfferedQuantity(w1.market.value.stock, "food") == 5.0;
    var ab := Offer(w1, w2, lane, food, 8.0, 15.0, 0);
    assert ab == [Shipment("food", 5.0, "w1", "w2", 1, Some("l1-2"))];
    assert Offer(w2, w1, lane, food, 15.0, 8.0, 0) == [];
    assert PairOffers(worlds, lane, food, 0) == ab;
    assert PairOffers(worlds, lane, minerals, 0) == [];
    var g := c => PairOffers(worlds, lane, c, 0);
    assert cs[..1] == [food] && cs[..1][..0] == [];
    assert ConcatMap(cs[..1], g) == ab;
    assert ConcatMap(cs, g) == ab;
    assert LaneOffers(worlds, lane, cs, 0) == ab;
    var f := l => LaneOffers(worlds, l, cs, 0);
    assert [lane][..0] == [];
    assert ConcatMap([lane], f) == ab;
  }

  // ----- process_trade: acceptance -----

  /** The state the acceptance loop changes. */
  datatype Books = Books(worlds: Worlds, shipments: seq<Shipment>, used: Usage)

  /** Reading used_capacity[lane] through the defaultdict inserts a 0.0 entry. */
  function Touched(u: Usage, l: LaneId): (v: Usage)
    ensures l in v && forall k :: UsedOn(v, k) == UsedOn(u, k)
    ensures forall k :: k != l ==> (k in v <==> k in u)
  {
    if l in u then u else u[l := 0.0]
  }

  /** One candidate of the acceptance loop: a candidate on a lane with room for
      its whole quantity takes what the source holds of it, up to that quantity;
      it is kept, with its candidate quantity, only if something was taken, and
      the lane's used capacity grows by the amount taken. */
  function Accept(b: Books, lanes: Lanes, s: Shipment, defaults: bool): Result<Books> {
    if s.laneId.None? || !Base.Truthy(s.laneId.value) then Ok(b)
    else
      var l := s.laneId.value;
      if l !in lanes.vals then Fail(MissingKey(l))
      else if !defaults && l !in b.used then Fail(MissingKey(l))
      else
        var used := Touched(b.used, l);
        if s.quantity <= Remaining(b.used, l, lanes.vals[l].capacity) then
          if s.source !in b.worlds.vals then Fail(MissingKey(s.source))
          else
            var w := b.worlds.vals[s.source];
            if w.market.None? then Fail(MissingComponent("market"))
            else
              var rm :- RemovedClamped(w.market.value.stock, s.commodity, s.quantity);
              var worlds := b.worlds.Put(s.source, w.(market := Some(w.market.value.(stock := rm.stock))));
              if rm.removed > 0.0 then Ok(Books(worlds, b.shipments + [s], Used(used, l, rm.removed)))
              else Ok(Books(worlds, b.shipments, used))
        else Ok(b.(used := used))
  }

  /** The acceptance loop over the candidates, in order. */
  function Accepted(b: Books, lanes: Lanes, cands: seq<Shipment>, defaults: bool): Result<Books>
    decreases |cands|
  {
    if cands == [] then Ok(b)
    else
      var pre :- Accepted(b, lanes, cands[..|cands| - 1], defaults);
      Accept(pre, lanes, cands[|cands| - 1], defaults)
  }

  lemma {:induction false} AcceptedStopped(b: Books, lanes: Lanes, cands: seq<Shipment>, defaults: bool, j: nat)
    requires j <= |cands| && Accepted(b, lanes, cands[..j], defaults).Fail?
    ensures Accepted(b, lanes, cands, defaults).Fail?
    decreases |cands| - j
  {
    if j < |cands| {
      assert cands[..j + 1][..j] == cands[..j];
      AcceptedStopped(b, lanes, cands, defaults, j + 1);
    } else {
      assert cands[..j] == cands;
    }
  }

  /** Used capacity of every lane stays within max(0, capacity). */
  predicate WithinCapacity(u: Usage, lanes: Lanes) {
    forall l :: l in lanes.vals ==> UsedOn(u, l) <= Max(0.0, lanes.vals[l].capacity)
  }

  /** Every market's stock is non-negative. */
  predicate StocksNonNegative(worlds: Worlds) {
    forall w :: w in worlds.vals && worlds.vals[w].market.Some? ==> NonNegative(worlds.vals[w].market.value.stock)
  }

  /** One acceptance keeps used capacity within the lane capacities and stocks
      non-negative, and appends at most the candidate itself. */
  lemma AcceptKeeps(b: Books, lanes: Lanes, s: Shipment, defaults: bool)
    requires WithinCapacity(b.used, lanes) && StocksNonNegative(b.worlds)
    requires Accept(b, lanes, s, defaults).Ok?
    ensures var r := Accept(b, lanes, s, defaults).value;
      WithinCapacity(r.used, lanes) && StocksNonNegative(r.worlds) &&
      (r.shipments == b.shipments || r.shipments == b.shipments + [s])
  {
    var r := Accept(b, lanes, s, defaults).value;
    if s.laneId.Some? && Base.Truthy(s.laneId.value) {
      var l := s.laneId.value;
      var cap := lanes.vals[l].capacity;
      if s.quantity <= Remaining(b.used, l, cap) {
        var w := b.worlds.vals[s.source];
        var rm := RemovedClamped(w.market.value.stock, s.commodity, s.quantity).value;
        assert rm.removed <= s.quantity;
        forall k | k in lanes.vals ensures UsedOn(r.used, k) <= Max(0.0, lanes.vals[k].capacity) {
          if k == l && rm.removed > 0.0 {
            assert UsedOn(r.used, k) == UsedOn(b.used, l) + rm.removed;
          }
        }
      }
    }
  }

  /** The acceptance loop keeps used capacity within every lane's capacity and
      stocks non-negative, and only appends candidates to the shipments. */
  lemma {:induction false} AcceptedKeeps(b: Books, lanes: Lanes, cands: seq<Shipment>, defaults: bool)
    requires WithinCapacity(b.used, lanes) && StocksNonNegative(b.worlds)
    requires Accepted(b, lanes, cands, defaults).Ok?
    ensures var r := Accepted(b, lanes, cands, defaults).value;
      WithinCapacity(r.used, lanes) && StocksNonNegative(r.worlds) &&
      |b.shipments| <= |r.shipments| && r.shipments[..|b.shipments|] == b.shipments &&
      forall i :: |b.shipments| <= i < |r.shipments| ==> r.shipments[i] in cands
    decreases |cands|
  {
    if cands != [] {
      var pre := cands[..|cands| - 1];
      var last := cands[|cands| - 1];
      AcceptedKeeps(b, lanes, pre, defaults);
      var mid := Accepted(b, lanes, pre, defaults).value;
      AcceptKeeps(mid, lanes, last, defaults);
      var r := Accepted(b, lanes, cands, defaults).value;
      assert forall x :: x in pre ==> x in cands;
      if r.shipments != mid.shipments {
        assert r.shipments == mid.shipments + [last];
        assert r.shipments[..|mid.shipments|] == mid.shipments;
      }
    }
  }

  /** One candidate changes at most the source world's stock. */
  lemma AcceptSameWorlds(b: Books, lanes: Lanes, s: Shipment, defaults: bool)
    requires Accept(b, lanes, s, defaults).Ok?
    ensures SameWorlds(b.worlds, Accept(b, lanes, s, defaults).value.worlds)
  {
    var r := Accept(b, lanes, s, defaults).value;
    if r.worlds != b.worlds {
      var w := b.worlds.vals[s.source];
      assert r.worlds.vals == b.worlds.vals[s.source := w.(market := Some(w.market.value.(stock := r.worlds.vals[s.source].market.value.stock)))];
    }
  }

  /** The acceptance loop changes only stocks. */
  lemma {:induction false} AcceptedSameWorlds(b: Books, lanes: Lanes, cands: seq<Shipment>, defaults: bool)
    requires Accepted(b, lanes, cands, defaults).Ok?
    ensures SameWorlds(b.worlds, Accepted(b, lanes, cands, defaults).value.worlds)
    decreases |cands|
  {
    if cands != [] {
      var pre := cands[..|cands| - 1];
      AcceptedSameWorlds(b, lanes, pre, defaults);
      AcceptSameWorlds(Accepted(b, lanes, pre, defaults).value, lanes, cands[|cands| - 1], defaults);
    }
  }

  // ----- process_trade: delivery -----

  /** The state the delivery loop changes. */
  datatype Delivery = Delivery(worlds: Worlds, arrived: seq<Shipment>, kept: seq<Shipment>)

  /** One active shipment: due by `tick`, its quantity is added to the
      destination's stock and it arrives; otherwise it is kept. */
  function Deliver(d: Delivery, s: Shipment, tick: int): Result<Delivery> {
    if s.etaTick <= tick then
      if s.destination !in d.worlds.vals then Fail(MissingKey(s.destination))
      else
        var w := d.worlds.vals[s.destination];
        if w.market.None? then Fail(MissingComponent("market"))
        else
          var stock :- Added(w.market.value.stock, s.commodity, s.quantity);
          Ok(Delivery(d.worlds.Put(s.destination, w.(market := Some(w.market.value.(stock := stock)))), d.arrived + [s], d.kept))
    else Ok(d.(kept := d.kept + [s]))
  }

  function Delivered(d: Delivery, ships: seq<Shipment>, tick: int): Result<Delivery>
    decreases |ships|
  {
    if ships == [] then Ok(d)
    else
      var pre :- Delivered(d, ships[..|ships| - 1], tick);
      Deliver(pre, ships[|ships| - 1], tick)
  }

  lemma {:induction false} DeliveredStopped(d: Delivery, ships: seq<Shipment>, tick: int, j: nat)
    requires j <= |ships| && Delivered(d, ships[..j], tick).Fail?
    ensures Delivered(d, ships, tick).Fail?
    decreases |ships| - j
  {
    if j < |ships| {
      assert ships[..j + 1][..j] == ships[..j];
      DeliveredStopped(d, ships, tick, j + 1);
    } else {
      assert ships[..j] == ships;
    }
  }

  /** The shipments due by `tick`, in order. */
  function Due(ships: seq<Shipment>, tick: int): (r: seq<Shipment>)
    ensures forall s :: s in r <==> s in ships && s.etaTick <= tick
    decreases |ships|
  {
    if ships == [] then []
    else
      var last := ships[|ships| - 1];
      assert forall s :: s in ships <==> s in ships[..|ships| - 1] || s == last;
      Due(ships[..|ships| - 1], tick) + (if last.etaTick <= tick then [last] else [])
  }

  /** The shipments not yet due, in order. */
  function Pending(ships: seq<Shipment>, tick: int): (r: seq<Shipment>)
    ensures forall s :: s in r <==> s in ships && s.etaTick > tick
    decreases |ships|
  {
    if ships == [] then []
    else
      var last := ships[|ships| - 1];
      assert forall s :: s in ships <==> s in ships[..|ships| - 1] || s == last;
      Pending(ships[..|ships| - 1], tick) + (if last.etaTick > tick then [last] else [])
  }

  /** Due and pending shipments together are exactly the active ones. */
  lemma {:induction false} DuePendingPartition(ships: seq<Shipment>, tick: int)
    ensures multiset(Due(ships, tick)) + multiset(Pending(ships, tick)) == multiset(ships)
    decreases |ships|
  {
    if ships != [] {
      var pre := ships[..|ships| - 1];
      DuePendingPartition(pre, tick);
      assert ships == pre + [ships[|ships| - 1]];
    }
  }

  /** The delivery loop sends exactly the due shipments, in order, to the
      arrivals and keeps exactly the others, in order. */
  lemma {:induction false} DeliveredSplits(d: Delivery, ships: seq<Shipment>, tick: int)
    requires Delivered(d, ships, tick).Ok?
    ensures Delivered(d, ships, tick).value.arrived == d.arrived + Due(ships, tick)
    ensures Delivered(d, ships, tick).value.kept == d.kept + Pending(ships, tick)
    decreases |ships|
  {
    if ships != [] {
      var pre := ships[..|ships| - 1];
      var s := ships[|ships| - 1];
      DeliveredSplits(d, pre, tick);
      DeliverSplits(Delivered(d, pre, tick).value, s, tick);
      assert Due(ships, tick) == Due(pre, tick) + (if s.etaTick <= tick then [s] else []);
      assert Pending(ships, tick) == Pending(pre, tick) + (if s.etaTick > tick then [s] else []);
    }
  }

  /** One delivery step appends the shipment to exactly one of the two lists. */
  lemma DeliverSplits(d: Delivery, s: Shipment, tick: int)
    requires Deliver(d, s, tick).Ok?
    ensures Deliver(d, s, tick).value.arrived == d.arrived + (if s.etaTick <= tick then [s] else [])
    ensures Deliver(d, s, tick).value.kept == d.kept + (if s.etaTick > tick then [s] else [])
  {
  }

  /** Each world keeps its place, its other fields and whether it has a market,
      and a market keeps everything but its stock. */
  predicate SameWorlds(a: Worlds, b: Worlds) {
    a.keys == b.keys && a.vals.Keys == b.vals.Keys &&
    forall w :: w in a.vals ==> b.vals[w] == a.vals[w].(market := b.vals[w].market) &&
                                (b.vals[w].market.Some? <==> a.vals[w].market.Some?) &&
                                (a.vals[w].market.Some? ==>
                                   b.vals[w].market.value == a.vals[w].market.value.(stock := b.vals[w].market.value.stock))
  }

  /** Every due shipment can be delivered: its destination is a known world with
      a market, and its quantity is non-negative. */
  predicate ArrivalsReady(worlds: Worlds, ships: seq<Shipment>, tick: int) {
    forall i :: 0 <= i < |ships| && ships[i].etaTick <= tick ==>
      ships[i].destination in worlds.vals && worlds.vals[ships[i].destination].market.Some? && ships[i].quantity >= 0.0
  }

  /** The quantity of commodity c due to world w by `tick`. */
  function Credit(ships: seq<Shipment>, tick: int, w: WorldId, c: CommodityId): real
    decreases |ships|
  {
    if ships == [] then 0.0
    else
      var s := ships[|ships| - 1];
      Credit(ships[..|ships| - 1], tick, w, c) +
        (if s.etaTick <= tick && s.destination == w && s.commodity == c then s.quantity else 0.0)
  }

  /** The delivery loop fails exactly when some due shipment cannot be delivered,
      and otherwise changes only stocks, keeping them non-negative. */
  lemma {:induction false} DeliveredKeeps(d: Delivery, ships: seq<Shipment>, tick: int)
    ensures Delivered(d, ships, tick).Ok? <==> ArrivalsReady(d.worlds, ships, tick)
    ensures Delivered(d, ships, tick).Ok? ==> SameWorlds(d.worlds, Delivered(d, ships, tick).value.worlds)
    ensures Delivered(d, ships, tick).Ok? && StocksNonNegative(d.worlds) ==>
      StocksNonNegative(Delivered(d, ships, tick).value.worlds)
    decreases |ships|
  {
    if ships != [] {
      var pre := ships[..|ships| - 1];
      var s := ships[|ships| - 1];
      DeliveredKeeps(d, pre, tick);
      assert ArrivalsReady(d.worlds, ships, tick) <==>
        ArrivalsReady(d.worlds, pre, tick) &&
        (s.etaTick <= tick ==> s.destination in d.worlds.vals && d.worlds.vals[s.destination].market.Some? && s.quantity >= 0.0) by {
        assert forall i :: 0 <= i < |pre| ==> pre[i] == ships[i];
      }
      if Delivered(d, pre, tick).Ok? {
        DeliverKeeps(Delivered(d, pre, tick).value, s, tick);
      }
    }
  }

  /** One delivery step: it fails exactly when the shipment is due and cannot
      be delivered, and otherwise changes only the destination's stock. */
  lemma DeliverKeeps(d: Delivery, s: Shipment, tick: int)
    ensures Deliver(d, s, tick).Ok? <==>
      (s.etaTick <= tick ==> s.destination in d.worlds.vals && d.worlds.vals[s.destination].market.Some? && s.quantity >= 0.0)
    ensures Deliver(d, s, tick).Ok? ==> SameWorlds(d.worlds, Deliver(d, s, tick).value.worlds)
    ensures Deliver(d, s, tick).Ok? && StocksNonNegative(d.worlds) ==> StocksNonNegative(Deliver(d, s, tick).value.worlds)
  {
    if s.etaTick <= tick && s.destination in d.worlds.vals && d.worlds.vals[s.destination].market.Some? && s.quantity >= 0.0 {
      var w := d.worlds.vals[s.destination];
      var r := Deliver(d, s, tick).value;
      assert r.worlds.vals == d.worlds.vals[s.destination := w.(market := Some(w.market.value.(stock := r.worlds.vals[s.destination].market.value.stock)))];
    }
  }

  /** Each world with a market receives exactly the quantities due to it. */
  lemma {:induction false} DeliveredCredits(d: Delivery, ships: seq<Shipment>, tick: int, w: WorldId, c: CommodityId)
    requires Delivered(d, ships, tick).Ok?
    requires w in d.worlds.vals && d.worlds.vals[w].market.Some?
    ensures var r := Delivered(d, ships, tick).value.worlds;
      w in r.vals && r.vals[w].market.Some? &&
      Amount(r.vals[w].market.value.stock, c, 0.0) ==
        Amount(d.worlds.vals[w].market.value.stock, c, 0.0) + Credit(ships, tick, w, c)
    decreases |ships|
  {
    DeliveredKeeps(d, ships, tick);
    if ships != [] {
      var pre := ships[..|ships| - 1];
      var s := ships[|ships| - 1];
      DeliveredCredits(d, pre, tick, w, c);
      DeliveredKeeps(d, pre, tick);
    }
  }

  // ----- process_trade -----

  /** What process_trade leaves: the worlds, the active shipments, the lane
      usage of this tick, and the shipments that arrived. */
  datatype TradeOutcome = TradeOutcome(worlds: Worlds, shipments: seq<Shipment>, used: Usage, arrived: seq<Shipment>)

  /** process_trade: the tracker is reset, candidates are accepted when new
      trades are allowed, then every due shipment is delivered. */
  function ProcessedTrade(worlds: Worlds, lanes: Lanes, commodities: Dict<CommodityId, Commodity>,
                          active: seq<Shipment>, defaults: bool, tick: int, allow: bool): Result<TradeOutcome>
    requires lanes.Valid() && commodities.Valid()
  {
    var start := Books(worlds, active, map[]);
    var b :- if allow then Accepted(start, lanes, CandidateTrades(worlds, lanes, commodities, tick), defaults) else Ok(start);
    var d :- Delivered(Delivery(b.worlds, [], []), b.shipments, tick);
    Ok(TradeOutcome(d.worlds, d.kept, b.used, d.arrived))
  }

  /** The acceptance half of process_trade: its books, with the candidates it used. */
  function AcceptedBooks(worlds: Worlds, lanes: Lanes, commodities: Dict<CommodityId, Commodity>,
                         active: seq<Shipment>, defaults: bool, tick: int, allow: bool): (r: Result<Books>)
    requires lanes.Valid() && commodities.Valid()
    ensures !allow ==> r == Ok(Books(worlds, active, map[]))
    ensures r.Ok? ==> (ProcessedTrade(worlds, lanes, commodities, active, defaults, tick, allow) ==
      (var d :- Delivered(Delivery(r.value.worlds, [], []), r.value.shipments, tick);
       Ok(TradeOutcome(d.worlds, d.kept, r.value.used, d.arrived))))
    ensures r.Fail? ==> ProcessedTrade(worlds, lanes, commodities, active, defaults, tick, allow).Fail?
  {
    var start := Books(worlds, active, map[]);
    if allow then Accepted(start, lanes, CandidateTrades(worlds, lanes, commodities, tick), defaults) else Ok(start)
  }

  /** After process_trade no lane carries more than max(0, capacity) this tick
      and stocks stay non-negative. */
  lemma ProcessedTradeBounded(worlds: Worlds, lanes: Lanes, commodities: Dict<CommodityId, Commodity>,
                              active: seq<Shipment>, defaults: bool, tick: int, allow: bool)
    requires lanes.Valid() && commodities.Valid() && StocksNonNegative(worlds)
    requires ProcessedTrade(worlds, lanes, commodities, active, defaults, tick, allow).Ok?
    ensures var r := ProcessedTrade(worlds, lanes, commodities, active, defaults, tick, allow).value;
      WithinCapacity(r.used, lanes) && StocksNonNegative(r.worlds)
  {
    var b := AcceptedBooks(worlds, lanes, commodities, active, defaults, tick, allow).value;
    if allow {
      AcceptedKeeps(Books(worlds, active, map[]), lanes, CandidateTrades(worlds, lanes, commodities, tick), defaults);
    }
    DeliveredKeeps(Delivery(b.worlds, [], []), b.shipments, tick);
  }

  /** The shipments process_trade handles are the active ones followed by
      candidate trades; the arrivals are exactly those due and the active list
      exactly the others, in order, with none lost or duplicated. */
  lemma ProcessedTradeShipments(worlds: Worlds, lanes: Lanes, commodities: Dict<CommodityId, Commodity>,
                                active: seq<Shipment>, defaults: bool, tick: int, allow: bool)
    requires lanes.Valid() && commodities.Valid() && StocksNonNegative(worlds)
    requires ProcessedTrade(worlds, lanes, commodities, active, defaults, tick, allow).Ok?
    ensures var all := AcceptedBooks(worlds, lanes, commodities, active, defaults, tick, allow).value.shipments;
      var r := ProcessedTrade(worlds, lanes, commodities, active, defaults, tick, allow).value;
      |active| <= |all| && all[..|active|] == active &&
      (forall i :: |active| <= i < |all| ==> all[i] in CandidateTrades(worlds, lanes, commodities, tick)) &&
      r.arrived == Due(all, tick) && r.shipments == Pending(all, tick) &&
      multiset(r.arrived) + multiset(r.shipments) == multiset(all)
  {
    var b := AcceptedBooks(worlds, lanes, commodities, active, defaults, tick, allow).value;
    if allow {
      AcceptedKeeps(Books(worlds, active, map[]), lanes, CandidateTrades(worlds, lanes, commodities, tick), defaults);
    } else {
      assert b.shipments[..|active|] == active;
    }
    DeliveredSplits(Delivery(b.worlds, [], []), b.shipments, tick);
    DuePendingPartition(b.shipments, tick);
  }

  /** process_trade changes nothing about a world but the stock of its market. */
  lemma ProcessedTradeSameWorlds(worlds: Worlds, lanes: Lanes, commodities: Dict<CommodityId, Commodity>,
                                 active: seq<Shipment>, defaults: bool, tick: int, allow: bool)
    requires lanes.Valid() && commodities.Valid()
    requires ProcessedTrade(worlds, lanes, commodities, active, defaults, tick, allow).Ok?
    ensures SameWorlds(worlds, ProcessedTrade(worlds, lanes, commodities, active, defaults, tick, allow).value.worlds)
  {
    var b := AcceptedBooks(worlds, lanes, commodities, active, defaults, tick, allow).value;
    if allow {
      AcceptedSameWorlds(Books(worlds, active, map[]), lanes, CandidateTrades(worlds, lanes, commodities, tick), defaults);
    }
    DeliveredKeeps(Delivery(b.worlds, [], []), b.shipments, tick);
  }

  /** With new trades disallowed no shipment is added and no lane is used. */
  lemma ProcessedTradeDisallowed(worlds: Worlds, lanes: Lanes, commodities: Dict<CommodityId, Commodity>,
                                 active: seq<Shipment>, defaults: bool, tick: int)
    requires lanes.Valid() && commodities.Valid()
    ensures var out := ProcessedTrade(worlds, lanes, commodities, active, defaults, tick, false);
      (out.Ok? <==> ArrivalsReady(worlds, active, tick)) &&
      (out.Ok? ==> out.value.used == map[] && out.value.arrived == Due(active, tick) &&
                   out.value.shipments == Pending(active, tick))
  {
    var d0 := Delivery(worlds, [], []);
    DeliveredKeeps(d0, active, tick);
    if Delivered(d0, active, tick).Ok? {
      DeliveredSplits(d0, active, tick);
    }
  }

  /** One candidate of the acceptance loop on the universe state. */
  method AcceptCandidate(state: UniverseState, s: Shipment, ghost b: Books)
    returns (r: Result<()>)
    requires state.lanes.Valid()
    requires b == Books(state.worlds, state.activeShipments, state.tracker.used)
    modifies state`worlds, state`activeShipments, state.tracker
    ensures state.tracker.defaults == old(state.tracker.defaults)
    ensures var out := Accept(b, state.lanes, s, old(state.tracker.defaults));
      (r.Ok? <==> out.Ok?) &&
      (r.Ok? ==> out.value == Books(state.worlds, state.activeShipments, state.tracker.used))
  {
    if s.laneId.None? || !Base.Truthy(s.laneId.value) {
      return Ok(());
    }
    var l := s.laneId.value;
    if l !in state.lanes.vals {
      return Fail(MissingKey(l));
    }
    var remaining :- state.tracker.GetRemainingCapacity(l, state.lanes.vals[l].capacity);
    if s.quantity <= remaining {
      if s.source !in state.worlds.vals {
        return Fail(MissingKey(s.source));
      }
      var w := state.worlds.vals[s.source];
      if w.market.None? {
        return Fail(MissingComponent("market"));
      }
      var rm :- RemovedClamped(w.market.value.stock, s.commodity, s.quantity);
      state.worlds := state.worlds.Put(s.source, w.(market := Some(w.market.value.(stock := rm.stock))));
      if rm.removed > 0.0 {
        state.activeShipments := state.activeShipments + [s];
        var added := state.tracker.AddUsedCapacity(l, rm.removed);
        assert added.Ok?;
      }
    }
    return Ok(());
  }

  /** One active shipment of the delivery loop. */
  method DeliverShipment(state: UniverseState, s: Shipment, arrived: seq<Shipment>, kept: seq<Shipment>)
    returns (r: Result<(seq<Shipment>, seq<Shipment>)>)
    modifies state`worlds
    ensures var out := Deliver(Delivery(old(state.worlds), arrived, kept), s, state.tick);
      (r.Ok? <==> out.Ok?) &&
      (r.Ok? ==> out.value == Delivery(state.worlds, r.value.0, r.value.1))
  {
    if s.etaTick <= state.tick {
      if s.destination !in state.worlds.vals {
        return Fail(MissingKey(s.destination));
      }
      var w := state.worlds.vals[s.destination];
      if w.market.None? {
        return Fail(MissingComponent("market"));
      }
      var stock :- Added(w.market.value.stock, s.commodity, s.quantity);
      state.worlds := state.worlds.Put(s.destination, w.(market := Some(w.market.value.(stock := stock))));
      return Ok((arrived + [s], kept));
    }
    return Ok((arrived, kept + [s]));
  }

  /** The acceptance loop on the universe state. */
  method AcceptAll(state: UniverseState, cands: seq<Shipment>) returns (r: Result<()>)
    requires state.lanes.Valid()
    modifies state`worlds, state`activeShipments, state.tracker
    ensures state.tracker.defaults == old(state.tracker.defaults)
    ensures var out := Accepted(Books(old(state.worlds), old(state.activeShipments), old(state.tracker.used)),
                                state.lanes, cands, old(state.tracker.defaults));
      (r.Ok? <==> out.Ok?) &&
      (r.Ok? ==> out.value == Books(state.worlds, state.activeShipments, state.tracker.used))
  {
    ghost var defaults := state.tracker.defaults;
    ghost var start := Books(state.worlds, state.activeShipments, state.tracker.used);
    var i := 0;
    while i < |cands|
      invariant 0 <= i <= |cands|
      invariant state.tracker.defaults == defaults
      invariant Accepted(start, state.lanes, cands[..i], defaults) ==
                Ok(Books(state.worlds, state.activeShipments, state.tracker.used))
    {
      assert cands[..i + 1][..i] == cands[..i];
      var ok := AcceptCandidate(state, cands[i], Books(state.worlds, state.activeShipments, state.tracker.used));
      if ok.Fail? {
        AcceptedStopped(start, state.lanes, cands, defaults, i + 1);
        return Fail(ok.error);
      }
      i := i + 1;
    }
    assert cands[..i] == cands;
    return Ok(());
  }

  /** The delivery loop on the universe state: the arrived and the kept shipments. */
  method DeliverAll(state: UniverseState, ships: seq<Shipment>) returns (r: Result<(seq<Shipment>, seq<Shipment>)>)
    modifies state`worlds
    ensures var out := Delivered(Delivery(old(state.worlds), [], []), ships, state.tick);
      (r.Ok? <==> out.Ok?) &&
      (r.Ok? ==> out.value == Delivery(state.worlds, r.value.0, r.value.1))
  {
    ghost var d0 := Delivery(state.worlds, [], []);
    var arrived, kept := [], [];
    var j := 0;
    while j < |ships|
      invariant 0 <= j <= |ships|
      invariant Delivered(d0, ships[..j], state.tick) == Ok(Delivery(state.worlds, arrived, kept))
    {
      assert ships[..j + 1][..j] == ships[..j];
      var step := DeliverShipment(state, ships[j], arrived, kept);
      if step.Fail? {
        DeliveredStopped(d0, ships, state.tick, j + 1);
        return Fail(step.error);
      }
      arrived, kept := step.value.0, step.value.1;
      j := j + 1;
    }
    assert ships[..j] == ships;
    return Ok((arrived, kept));
  }

  /** process_trade(state, allow_new_trades): returns the arrived shipments;
      the worlds, active shipments and lane usage become those of ProcessedTrade. */
  method ProcessTrade(state: UniverseState, allow: bool) returns (r: Result<seq<Shipment>>)
    requires state.lanes.Valid() && state.commodityRegistry.commodities.Valid()
    modifies state`worlds, state`activeShipments, state.tracker
    ensures state.tracker.defaults == old(state.tracker.defaults)
    ensures var out := ProcessedTrade(old(state.worlds), state.lanes, state.commodityRegistry.commodities,
                                      old(state.activeShipments), old(state.tracker.defaults), state.tick, allow);
      (r.Ok? <==> out.Ok?) &&
      (r.Ok? ==> r.value == out.value.arrived && state.worlds == out.value.worlds &&
                 state.activeShipments == out.value.shipments && state.tracker.used == out.value.used)
  {
    state.tracker.Reset();
    if allow {
      var cands := CandidateTrades(state.worlds, state.lanes, state.commodityRegistry.commodities, state.tick);
      var ok := AcceptAll(state, cands);
      if ok.Fail? {
        return Fail(ok.error);
      }
    }
    var delivered :- DeliverAll(state, state.activeShipments);
    state.activeShipments := delivered.1;
    return Ok(delivered.0);
  }
}
