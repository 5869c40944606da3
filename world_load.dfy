// world/load.py: load_universe, which reads a parsed universe document into
// worlds and lanes, rejecting a missing seed, duplicate ids and lanes that
// name unknown worlds.

module WorldLoad {
  import opened Base
  import opened Docs
  import opened EconInventory
  import opened EconMarketData
  import opened EconPopulation
  import opened EconIndustry
  import opened WorldModel

  /** What load_universe hands to UniverseState: the seed and tick as written
      and the worlds and lanes it built. */
  datatype Loaded = Loaded(seed: Value, tick: Value, worlds: Dict<WorldId, WorldV>, lanes: Dict<LaneId, LaneV>)

  const NoFields: Value := Obj(EmptyDict())

  // ---------------------------------------------------------------------
  // Python operations on parsed values

  /** v.get(key, default): an AttributeError unless v is a mapping. */
  function GetOr(v: Value, key: string, default: Value): (r: Result<Value>)
    ensures r.Ok? <==> v.Obj?
    ensures r.Ok? ==> r.value == v.fields.Get(key, default)
    ensures r.Ok? && WellFormed(v) && WellFormed(default) ==> WellFormed(r.value)
  {
    if v.Obj? then Ok(v.fields.Get(key, default)) else Fail(MissingComponent("get"))
  }

  /** v.items(): an AttributeError unless v is a mapping. */
  function ItemsOf(v: Value): (r: Result<Dict<string, Value>>)
    ensures r.Ok? <==> v.Obj?
    ensures r.Ok? ==> r.value == v.fields
  {
    if v.Obj? then Ok(v.fields) else Fail(MissingComponent("items"))
  }


  /** A value usable as a set element or dictionary key: lists and mappings are not. */
  predicate Hashable(v: Value) { !v.List? && !v.Obj? }

  /** The element a Python set keeps for v: True, 1 and 1.0 are one element. */
  function SetKey(v: Value): Value {
    if IsNumber(v) then Float(NumberOf(v)) else v
  }

  // ---------------------------------------------------------------------
  // Ids and their uniqueness

  /** [e['id'] for e in entries] */
  function IdsOf(entries: seq<Value>): (r: Result<seq<Value>>)
    ensures r.Ok? <==> forall i :: 0 <= i < |entries| ==> HasKey(entries[i], "id")
    ensures r.Ok? ==> |r.value| == |entries| && forall i :: 0 <= i < |entries| ==> r.value[i] == entries[i].fields.vals["id"]
  {
    if entries == [] then Ok([])
    else
      var id :- Field(entries[0], "id");
      var rest :- IdsOf(entries[1..]);
      assert forall i :: 1 <= i < |entries| ==> entries[i] == entries[1..][i - 1];
      Ok([id] + rest)
  }

  predicate NoRepeats(ids: seq<Value>) {
    forall i, j :: 0 <= i < j < |ids| ==> SetKey(ids[i]) != SetKey(ids[j])
  }

  /** len(ids) != len(set(ids)) raises the given check; building the set is a
      TypeError on an unhashable id. */
  function Unique(ids: seq<Value>, check: UniverseCheck): (r: Result<()>)
    ensures r.Ok? <==> (forall i :: 0 <= i < |ids| ==> Hashable(ids[i])) && NoRepeats(ids)
    ensures (forall i :: 0 <= i < |ids| ==> Hashable(ids[i])) && !NoRepeats(ids) ==> r == Fail(Universe(check))
  {
    if exists i :: 0 <= i < |ids| && !Hashable(ids[i]) then Fail(TypeMismatch("unhashable type"))
    else if !NoRepeats(ids) then Fail(Universe(check))
    else Ok(())
  }

  // ---------------------------------------------------------------------
  // Components

  /** One inventory.add of a parsed quantity: a TypeError unless it is a
      number, then Added's rejection of a negative amount. */
  function AddStep(q: Stock, c: CommodityId, v: Value): (r: Result<Stock>)
  {
    if !IsNumber(v) then Fail(TypeMismatch("quantity"))
    else if NumberOf(v) < 0.0 then Fail(NegativeQuantity)
    else Ok(q[c := Amount(q, c, 0.0) + NumberOf(v)])
  }

  /** AddStep is Inventory.add once the quantity is read as a number. */
  lemma AddStepIsAdded(q: Stock, c: CommodityId, v: Value)
    ensures !IsNumber(v) ==> AddStep(q, c, v) == Fail(TypeMismatch("quantity"))
    ensures IsNumber(v) ==> AddStep(q, c, v) == Added(q, c, NumberOf(v))
  {
  }

  /** The inventory.add loop over the first n entries of a quantity mapping,
      starting from the stock q. */
  function StockFrom(q: Stock, d: Dict<string, Value>, n: nat): (r: Result<Stock>)
    requires d.Valid() && n <= |d.keys|
  {
    if n == 0 then Ok(q)
    else
      var pre :- StockFrom(q, d, n - 1);
      AddStep(pre, d.keys[n - 1], d.vals[d.keys[n - 1]])
  }

  /** A quantity the inventory accepts: a non-negative number. */
  predicate Quantity(v: Value) { IsNumber(v) && NumberOf(v) >= 0.0 }

  /** Filling an inventory from a mapping succeeds exactly when every
      quantity is a non-negative number. */
  lemma {:induction false} StockFromOk(q: Stock, d: Dict<string, Value>, n: nat)
    requires d.Valid() && n <= |d.keys|
    ensures StockFrom(q, d, n).Ok? <==> forall i :: 0 <= i < n ==> Quantity(d.vals[d.keys[i]])
  {
    if n > 0 {
      StockFromOk(q, d, n - 1);
      if StockFrom(q, d, n - 1).Fail? {
        assert StockFrom(q, d, n).Fail?;
      }
    }
  }

  /** What the first n entries of a quantity mapping leave in an inventory
      that started empty: each of them, as given, and nothing else. */
  ghost predicate FilledWith(q: Stock, d: Dict<string, Value>, n: nat)
    requires d.Valid() && n <= |d.keys|
  {
    (forall c :: c in q <==> c in d.keys[..n]) &&
    forall i :: 0 <= i < n ==> Quantity(d.vals[d.keys[i]]) && q[d.keys[i]] == NumberOf(d.vals[d.keys[i]])
  }

  /** One more distinct entry, added as the loop adds it, keeps FilledWith. */
  lemma FilledWithStep(q: Stock, d: Dict<string, Value>, n: nat)
    requires d.Valid() && n < |d.keys| && FilledWith(q, d, n) && Quantity(d.vals[d.keys[n]])
    ensures FilledWith(q[d.keys[n] := NumberOf(d.vals[d.keys[n]])], d, n + 1)
  {
    var c := d.keys[n];
    var q' := q[c := NumberOf(d.vals[c])];
    assert d.keys[..n + 1] == d.keys[..n] + [c];
    forall i | 0 <= i < n + 1
      ensures Quantity(d.vals[d.keys[i]]) && q'[d.keys[i]] == NumberOf(d.vals[d.keys[i]])
    {
      if i < n {
        assert d.keys[i] != c;
      }
    }
  }

  /** A successful fill of an empty inventory stores each quantity as given
      under its own commodity and nothing else. */
  lemma {:induction false} StockFromValues(d: Dict<string, Value>, n: nat)
    requires d.Valid() && n <= |d.keys| && StockFrom(map[], d, n).Ok?
    ensures FilledWith(StockFrom(map[], d, n).value, d, n)
  {
    if n > 0 {
      var pre := StockFrom(map[], d, n - 1);
      assert pre.Ok?;
      StockFromValues(d, n - 1);
      var c := d.keys[n - 1];
      assert c !in pre.value by {
        assert c !in d.keys[..n - 1];
      }
      assert Quantity(d.vals[c]);
      assert StockFrom(map[], d, n) == Ok(pre.value[c := NumberOf(d.vals[c])]);
      FilledWithStep(pre.value, d, n - 1);
    }
  }

  /** Filling an empty inventory from a whole mapping of quantities gives
      the mapping's numbers, key for key. */
  lemma StockFromAll(d: Dict<string, Value>)
    requires d.Valid() && forall k :: k in d.vals ==> IsNumber(d.vals[k]) && NumberOf(d.vals[k]) >= 0.0
    ensures StockFrom(map[], d, |d.keys|) == Ok(map k | k in d.vals :: NumberOf(d.vals[k]))
  {
    var n := |d.keys|;
    StockFromOk(map[], d, n);
    StockFromValues(d, n);
    assert d.keys[..n] == d.keys;
    var r := StockFrom(map[], d, n).value;
    var m := map k | k in d.vals :: NumberOf(d.vals[k]);
    forall c | c in m ensures c in r && r[c] == m[c] {
      var i :| 0 <= i < n && d.keys[i] == c;
    }
    assert r == m;
  }

  /** Market data: the inventory filled entry by entry, the prices and targets
      read as given; the controller parameters keep their defaults. */
  function MarketFrom(md: Value): (r: Result<MarketV>)
    requires WellFormed(md)
    ensures r.Ok? ==>
      r.value.factor == DEFAULT_PRICE_CHANGE_FACTOR &&
      r.value.minMult == DEFAULT_MIN_PRICE_MULTIPLIER && r.value.maxMult == DEFAULT_MAX_PRICE_MULTIPLIER
    ensures r.Ok? ==> NonNegative(r.value.stock) && r.value.prices.Valid() && r.value.targets.Valid()
  {
    var inv :- GetOr(md, "inventory", NoFields);
    var invItems :- ItemsOf(inv);
    var stock :- StockFrom(map[], invItems, |invItems.keys|);
    assert WellFormed(NoFields);
    assert WellFormed(md.fields.Get("prices", NoFields)) && WellFormed(md.fields.Get("targets", NoFields));
    var pricesItems :- ItemsOf(md.fields.Get("prices", NoFields));
    var prices :- NumberDict(pricesItems, "price");
    var targetsItems :- ItemsOf(md.fields.Get("targets", NoFields));
    var targets :- NumberDict(targetsItems, "target");
    StockFromOk(map[], invItems, |invItems.keys|);
    StockFromValues(invItems, |invItems.keys|);
    assert NonNegative(stock) by {
      forall c | c in stock ensures stock[c] >= 0.0 {
        var i :| 0 <= i < |invItems.keys| && invItems.keys[i] == c;
      }
    }
    Ok(MarketV(stock, prices, targets, DEFAULT_PRICE_CHANGE_FACTOR,
               DEFAULT_MIN_PRICE_MULTIPLIER, DEFAULT_MAX_PRICE_MULTIPLIER))
  }

  /** Population data: needs, size (default 0) and growth rate (default 0.0);
      the loaded population has no energy upkeep attribute. */
  function PopulationFrom(pd: Value): (r: Result<PopulationV>)
    requires WellFormed(pd)
    ensures r.Ok? ==> pd.Obj? && r.value.energyUpkeep.None? && r.value.needs.Valid()
    ensures r.Ok? ==> NumberAt(pd, "size", 0.0, r.value.size) && NumberAt(pd, "growth_rate", 0.0, r.value.growthRate)
  {
    var needsV :- GetOr(pd, "needs", NoFields);
    var needsItems :- ItemsOf(needsV);
    var needs :- NumberDict(needsItems, "need");
    var size :- AsNumber(pd.fields.Get("size", Int(0)), "size");
    var growth :- AsNumber(pd.fields.Get("growth_rate", Float(0.0)), "growth_rate");
    Ok(PopulationV(size, growth, needs, None))
  }

  /** Industry data: the recipe caps. */
  function IndustryFrom(id: Value): (r: Result<IndustryV>)
    requires WellFormed(id)
    ensures r.Ok? ==> id.Obj? && r.value.caps.Valid()
  {
    var capsV :- GetOr(id, "caps", NoFields);
    var capsItems :- ItemsOf(capsV);
    var caps :- NumberDict(capsItems, "cap");
    Ok(IndustryV(caps))
  }

  // ---------------------------------------------------------------------
  // Worlds

  /** x is what w.get(key, default) reads as a number. */
  predicate NumberAt(w: Value, key: string, default: real, x: real)
    requires w.Obj?
  {
    if key in w.fields.vals then IsNumber(w.fields.vals[key]) && NumberOf(w.fields.vals[key]) == x
    else x == default
  }

  /** set(names), kept in first-occurrence order. */
  function Dedup(s: seq<string>): (r: seq<string>)
    ensures Distinct(r) && forall t :: t in r <==> t in s
    ensures Distinct(s) ==> r == s
  {
    if s == [] then []
    else
      var pre := Dedup(s[..|s| - 1]);
      var t := s[|s| - 1];
      assert s == s[..|s| - 1] + [t];
      if t in pre then pre else pre + [t]
  }

  /** The tag names of a list of strings. */
  function Names(items: seq<Value>): (r: seq<string>)
    requires forall i :: 0 <= i < |items| ==> items[i].Str?
    ensures |r| == |items| && forall i :: 0 <= i < |items| ==> items[i] == Str(r[i])
  {
    seq(|items|, i requires 0 <= i < |items| => items[i].s)
  }

  /** set(w.get('tags', [])) for a list of strings. */
  function TagsFrom(v: Value): (r: Result<seq<string>>)
    ensures r.Ok? <==> v.List? && forall i :: 0 <= i < |v.items| ==> v.items[i].Str?
    ensures r.Ok? ==> Distinct(r.value) && forall t :: t in r.value <==> Str(t) in v.items
  {
    if v.List? && forall i :: 0 <= i < |v.items| ==> v.items[i].Str? then
      var names := Names(v.items);
      assert forall t :: t in names <==> Str(t) in v.items by {
        forall t ensures t in names <==> Str(t) in v.items {
          if Str(t) in v.items {
            var i :| 0 <= i < |v.items| && v.items[i] == Str(t);
            assert names[i] == t;
          }
        }
      }
      Ok(Dedup(names))
    else Fail(TypeMismatch("tags"))
  }

  /** The optional components of a world entry: a market when the key is
      present, a population when present and not null, an industry when present. */
  datatype Parts = Parts(market: Option<MarketV>, population: Option<PopulationV>, industry: Option<IndustryV>)

  function PartsFrom(w: Value): (r: Result<Parts>)
    requires WellFormed(w) && w.Obj?
    ensures r.Ok? ==> (r.value.market.Some? <==> HasKey(w, "market"))
    ensures r.Ok? ==> (r.value.population.Some? <==> HasKey(w, "population") && !w.fields.vals["population"].Null?)
    ensures r.Ok? ==> (r.value.industry.Some? <==> HasKey(w, "industry"))
    ensures r.Ok? && HasKey(w, "market") ==> Ok(r.value.market.value) == MarketFrom(w.fields.vals["market"])
  {
    var market :-
      if "market" in w.fields.vals then
        var m :- MarketFrom(w.fields.vals["market"]); Ok(Some(m))
      else Ok(None);
    var population :-
      if "population" in w.fields.vals && !w.fields.vals["population"].Null? then
        var p :- PopulationFrom(w.fields.vals["population"]); Ok(Some(p))
      else Ok(None);
    var industry :-
      if "industry" in w.fields.vals then
        var i :- IndustryFrom(w.fields.vals["industry"]); Ok(Some(i))
      else Ok(None);
    Ok(Parts(market, population, industry))
  }

  /** One world entry: the id and name as written, the numeric fields with
      their defaults (1.0 for stability, prosperity and tech, 0.0 for scarcity
      and unrest), the tags as a set; no faction state and no controller. */
  function WorldFrom(w: Value): (r: Result<WorldV>)
    requires WellFormed(w)
    ensures r.Ok? ==> HasKey(w, "id") && w.fields.vals["id"] == Str(r.value.id)
  {
    var idV :- Field(w, "id");
    var id :- AsString(idV, "world id");
    var parts :- PartsFrom(w);
    var name :- Field(w, "name");
    var stability :- AsNumber(w.fields.Get("stability", Float(1.0)), "stability");
    var prosperity :- AsNumber(w.fields.Get("prosperity", Float(1.0)), "prosperity");
    var tech :- AsNumber(w.fields.Get("tech", Float(1.0)), "tech");
    var tags :- TagsFrom(w.fields.Get("tags", List([])));
    var scarcity :- AsNumber(w.fields.Get("scarcity", Float(0.0)), "scarcity");
    var unrest :- AsNumber(w.fields.Get("unrest", Float(0.0)), "unrest");
    Ok(WorldV(id, name, stability, prosperity, tech, tags, 0.0, 0.0, scarcity, unrest, [],
              parts.market, parts.population, parts.industry, None, None))
  }

  /** What a loaded world holds: the name as written, each number read or
      defaulted, the tags as a set, the components whose keys are present,
      and no faction state or controller. */
  lemma WorldFromMeans(w: Value)
    requires WellFormed(w) && WorldFrom(w).Ok?
    ensures var x := WorldFrom(w).value;
      HasKey(w, "name") && x.name == w.fields.vals["name"] &&
      NumberAt(w, "stability", 1.0, x.stability) && NumberAt(w, "prosperity", 1.0, x.prosperity) &&
      NumberAt(w, "tech", 1.0, x.tech) && NumberAt(w, "scarcity", 0.0, x.scarcity) &&
      NumberAt(w, "unrest", 0.0, x.unrest) && x.x == 0.0 && x.y == 0.0
    ensures var x := WorldFrom(w).value;
      var tags := w.fields.Get("tags", List([]));
      Distinct(x.tags) && tags.List? && forall t :: t in x.tags <==> Str(t) in tags.items
    ensures var x := WorldFrom(w).value;
      x.factions.None? && x.control.None? && x.planets == [] &&
      (x.market.Some? <==> HasKey(w, "market")) &&
      (x.population.Some? <==> HasKey(w, "population") && !w.fields.vals["population"].Null?) &&
      (x.industry.Some? <==> HasKey(w, "industry"))
  {
  }


  // ---------------------------------------------------------------------
  // The two construction loops

  /** d[key(x)] = x for each of the first n results in order, the first
      failure stopping the loop; the assignment is Dict.Put written out
      (KeyedStepIsPut). */
  function Keyed<T>(rs: seq<Result<T>>, key: T -> string, n: nat): (r: Result<Dict<string, T>>)
    requires n <= |rs|
  {
    if n == 0 then Ok(EmptyDict())
    else
      var pre :- Keyed(rs, key, n - 1);
      var x :- rs[n - 1];
      Ok(Dict(if key(x) in pre.vals then pre.keys else pre.keys + [key(x)], pre.vals[key(x) := x]))
  }

  /** Every value is stored under its own key. */
  lemma {:induction false} KeyedIds<T>(rs: seq<Result<T>>, key: T -> string, n: nat)
    requires n <= |rs|
    ensures Keyed(rs, key, n).Ok? ==>
      forall k :: k in Keyed(rs, key, n).value.vals ==> key(Keyed(rs, key, n).value.vals[k]) == k
  {
    if n > 0 {
      KeyedIds(rs, key, n - 1);
    }
  }

  /** The loop lists each key once. */
  lemma {:induction false} KeyedValid<T>(rs: seq<Result<T>>, key: T -> string, n: nat)
    requires n <= |rs|
    ensures Keyed(rs, key, n).Ok? ==> Keyed(rs, key, n).value.Valid()
  {
    if n > 0 {
      KeyedValid(rs, key, n - 1);
    }
  }

  /** The loop succeeds exactly when every result is a success. */
  lemma {:induction false} KeyedOk<T>(rs: seq<Result<T>>, key: T -> string, n: nat)
    requires n <= |rs|
    ensures Keyed(rs, key, n).Ok? <==> forall i :: 0 <= i < n ==> rs[i].Ok?
  {
    if n > 0 {
      KeyedOk(rs, key, n - 1);
      if Keyed(rs, key, n - 1).Fail? {
        assert Keyed(rs, key, n).Fail?;
      } else if rs[n - 1].Fail? {
        assert Keyed(rs, key, n).Fail?;
      } else {
        assert Keyed(rs, key, n).Ok?;
      }
    }
  }

  /** Each step is the dictionary assignment. */
  lemma KeyedStepIsPut<T>(rs: seq<Result<T>>, key: T -> string, n: nat, pre: Dict<string, T>, x: T)
    requires n < |rs| && Keyed(rs, key, n) == Ok(pre) && rs[n] == Ok(x)
    ensures Keyed(rs, key, n + 1) == Ok(pre.Put(key(x), x))
  {
  }

  /** After a successful loop every result's key is present. */
  lemma {:induction false} KeyedHasAll<T>(rs: seq<Result<T>>, key: T -> string, n: nat)
    requires n <= |rs| && Keyed(rs, key, n).Ok?
    ensures forall i :: 0 <= i < n ==> rs[i].Ok? && key(rs[i].value) in Keyed(rs, key, n).value.vals
  {
    if n > 0 {
      KeyedHasAll(rs, key, n - 1);
    }
  }

  /** A failed loop raises what the first failing result raises. */
  lemma {:induction false} KeyedFirstFailure<T>(rs: seq<Result<T>>, key: T -> string, n: nat, k: nat)
    requires k < n <= |rs| && rs[k].Fail? && forall i :: 0 <= i < k ==> rs[i].Ok?
    ensures Keyed(rs, key, n) == Fail(rs[k].error)
    decreases n
  {
    if k < n - 1 {
      KeyedFirstFailure(rs, key, n - 1, k);
    } else {
      KeyedOk(rs, key, k);
    }
  }

  /** Once the loop has failed it stays failed with the same error. */
  lemma {:induction false} KeyedFails<T>(rs: seq<Result<T>>, key: T -> string, i: nat, n: nat)
    requires i <= n <= |rs| && Keyed(rs, key, i).Fail?
    ensures Keyed(rs, key, n) == Fail(Keyed(rs, key, i).error)
    decreases n - i
  {
    if i < n {
      KeyedFails(rs, key, i, n - 1);
      assert Keyed(rs, key, n) == Fail(Keyed(rs, key, n - 1).error);
    }
  }

  /** A loop that reaches a failing result raises its error. */
  lemma KeyedStops<T>(rs: seq<Result<T>>, key: T -> string, n: nat, pre: Dict<string, T>)
    requires n < |rs| && Keyed(rs, key, n) == Ok(pre) && rs[n].Fail?
    ensures Keyed(rs, key, |rs|) == Fail(rs[n].error)
  {
    KeyedFails(rs, key, n + 1, |rs|);
  }

  /** Every stored value is one of the results. */
  lemma {:induction false} KeyedFrom<T>(rs: seq<Result<T>>, key: T -> string, n: nat)
    requires n <= |rs| && Keyed(rs, key, n).Ok?
    ensures forall k :: k in Keyed(rs, key, n).value.vals ==> Ok(Keyed(rs, key, n).value.vals[k]) in rs[..n]
  {
    if n > 0 {
      KeyedFrom(rs, key, n - 1);
      assert rs[..n] == rs[..n - 1] + [rs[n - 1]];
    }
  }

  /** With pairwise different keys, a loop over successes lists the n
      results in order, each under its own key. */
  lemma {:induction false} KeyedInOrder<T>(rs: seq<Result<T>>, key: T -> string, n: nat)
    requires n <= |rs| && forall i :: 0 <= i < n ==> rs[i].Ok?
    requires forall i, j :: 0 <= i < j < n ==> key(rs[i].value) != key(rs[j].value)
    ensures Keyed(rs, key, n).Ok?
    ensures var d := Keyed(rs, key, n).value;
      |d.keys| == n &&
      forall i :: 0 <= i < n ==> d.keys[i] == key(rs[i].value) && d.keys[i] in d.vals && d.vals[d.keys[i]] == rs[i].value
  {
    if n > 0 {
      KeyedInOrder(rs, key, n - 1);
      var pre := Keyed(rs, key, n - 1).value;
      var x := rs[n - 1].value;
      KeyedValid(rs, key, n - 1);
      assert key(x) !in pre.vals by {
        assert forall i :: 0 <= i < n - 1 ==> pre.keys[i] != key(x);
      }
      var d := Dict(pre.keys + [key(x)], pre.vals[key(x) := x]);
      assert Keyed(rs, key, n) == Ok(d);
      assert d.keys == pre.keys + [key(x)];
      forall i | 0 <= i < n - 1
        ensures d.vals[d.keys[i]] == rs[i].value
      {
        assert d.keys[i] == pre.keys[i] && pre.keys[i] != key(x);
      }
    }
  }

  function WorldKey(w: WorldV): WorldId { w.id }
  function LaneKey(l: LaneV): LaneId { l.id }

  /** The world built from each entry. */
  function WorldResults(entries: seq<Value>): (rs: seq<Result<WorldV>>)
    requires forall i :: 0 <= i < |entries| ==> WellFormed(entries[i])
    ensures |rs| == |entries| && forall i :: 0 <= i < |entries| ==> rs[i] == WorldFrom(entries[i])
  {
    seq(|entries|, i requires 0 <= i < |entries| => WorldFrom(entries[i]))
  }

  // ---------------------------------------------------------------------
  // Lanes

  /** One lane entry: both endpoints are read before either is checked, and
      each must name a loaded world; distance, hazard and capacity default
      to 1.0, 0.0 and 1.0. */
  function LaneFrom(l: Value, worlds: Dict<WorldId, WorldV>): (r: Result<LaneV>)
    requires WellFormed(l)
    ensures r.Ok? ==> r.value.a in worlds.vals && r.value.b in worlds.vals
    ensures r.Ok? ==> HasKey(l, "id") && l.fields.vals["id"] == Str(r.value.id)
  {
    var aV :- Field(l, "a");
    var bV :- Field(l, "b");
    var a :- AsString(aV, "world id");
    var b :- AsString(bV, "world id");
    var idV :- Field(l, "id");
    var id :- AsString(idV, "lane id");
    if a !in worlds.vals then Fail(Universe(UnknownWorld(id, a)))
    else if b !in worlds.vals then Fail(Universe(UnknownWorld(id, b)))
    else
      var distance :- AsNumber(l.fields.Get("distance", Float(1.0)), "distance");
      var hazard :- AsNumber(l.fields.Get("hazard", Float(0.0)), "hazard");
      var capacity :- AsNumber(l.fields.Get("capacity", Float(1.0)), "capacity");
      Ok(LaneV(id, a, b, distance, hazard, capacity))
  }

  /** A loaded lane joins the worlds its entry names, with each number read
      or defaulted; an entry naming an unknown world is rejected, the a end
      checked first. */
  lemma LaneFromMeans(l: Value, worlds: Dict<WorldId, WorldV>)
    requires WellFormed(l)
    ensures var r := LaneFrom(l, worlds);
      r.Ok? ==>
        HasKey(l, "a") && l.fields.vals["a"] == Str(r.value.a) &&
        HasKey(l, "b") && l.fields.vals["b"] == Str(r.value.b) &&
        NumberAt(l, "distance", 1.0, r.value.distance) &&
        NumberAt(l, "hazard", 0.0, r.value.hazard) && NumberAt(l, "capacity", 1.0, r.value.capacity)
    ensures HasKey(l, "id") && HasKey(l, "a") && HasKey(l, "b") ==>
      var (id, a, b) := (l.fields.vals["id"], l.fields.vals["a"], l.fields.vals["b"]);
      id.Str? && a.Str? && b.Str? ==>
        (a.s !in worlds.vals ==> LaneFrom(l, worlds) == Fail(Universe(UnknownWorld(id.s, a.s)))) &&
        (a.s in worlds.vals && b.s !in worlds.vals ==> LaneFrom(l, worlds) == Fail(Universe(UnknownWorld(id.s, b.s))))
  {
  }

  /** The lane built from each entry against the loaded worlds. */
  function LaneResults(entries: seq<Value>, worlds: Dict<WorldId, WorldV>): (rs: seq<Result<LaneV>>)
    requires forall i :: 0 <= i < |entries| ==> WellFormed(entries[i])
    ensures |rs| == |entries| && forall i :: 0 <= i < |entries| ==> rs[i] == LaneFrom(entries[i], worlds)
  {
    seq(|entries|, i requires 0 <= i < |entries| => LaneFrom(entries[i], worlds))
  }

  // ---------------------------------------------------------------------
  // load_universe

  /** The entries load_universe iterates over, once its checks have passed. */
  datatype Entries = Entries(seed: Value, worlds: seq<Value>, lanes: seq<Value>)

  /** The entries under one key of the document, once their ids have been
      read and found unique. */
  function CheckedEntries(v: Value, check: UniverseCheck): (r: Result<seq<Value>>)
    requires WellFormed(v)
    ensures r.Ok? ==> Iterated(v) == Ok(r.value) && forall i :: 0 <= i < |r.value| ==> WellFormed(r.value[i])
    ensures r.Ok? ==> IdsOf(r.value).Ok? && NoRepeats(IdsOf(r.value).value)
  {
    var es :- Iterated(v);
    var ids :- IdsOf(es);
    var _ :- Unique(ids, check);
    Ok(es)
  }

  /** Two entries whose ids a set cannot tell apart raise the check, once
      every id is readable and hashable. */
  lemma CheckedEntriesRejects(v: Value, check: UniverseCheck, i: nat, j: nat)
    requires WellFormed(v) && Iterated(v).Ok?
    requires var es := Iterated(v).value;
      (forall k :: 0 <= k < |es| ==> HasKey(es[k], "id") && Hashable(es[k].fields.vals["id"])) &&
      i < j < |es| && SetKey(es[i].fields.vals["id"]) == SetKey(es[j].fields.vals["id"])
    ensures CheckedEntries(v, check) == Fail(Universe(check))
  {
    var es := Iterated(v).value;
    var ids := IdsOf(es).value;
    assert ids[i] == es[i].fields.vals["id"] && ids[j] == es[j].fields.vals["id"];
    assert !NoRepeats(ids);
    assert forall k :: 0 <= k < |ids| ==> Hashable(ids[k]);
    assert Unique(ids, check) == Fail(Universe(check));
  }

  /** The checks before the loops: data.get on the document, the seed, the
      world ids and then the lane ids. */
  function EntriesOf(data: Value): (r: Result<Entries>)
    requires WellFormed(data)
    ensures r.Ok? ==> data.Obj? && !r.value.seed.Null? && r.value.seed == data.fields.Get("seed", Null)
    ensures r.Ok? ==>
      CheckedEntries(data.fields.Get("worlds", List([])), DuplicateWorlds) == Ok(r.value.worlds) &&
      CheckedEntries(data.fields.Get("lanes", List([])), DuplicateLanes) == Ok(r.value.lanes)
  {
    var seed :- GetOr(data, "seed", Null);
    if seed.Null? then Fail(Universe(MissingSeed))
    else
      var worldsV := data.fields.Get("worlds", List([]));
      var lanesV := data.fields.Get("lanes", List([]));
      assert WellFormed(worldsV) && WellFormed(lanesV);
      var worlds :- CheckedEntries(worldsV, DuplicateWorlds);
      var lanes :- CheckedEntries(lanesV, DuplicateLanes);
      Ok(Entries(seed, worlds, lanes))
  }

  /** load_universe on a parsed document: None for an empty document, the
      checks, the worlds loop and then the lanes loop; the tick defaults to 0. */
  function LoadedFrom(data: Value): (r: Result<Option<Loaded>>)
    requires WellFormed(data)
  {
    if data.Null? then Ok(None)
    else
      var e :- EntriesOf(data);
      var worlds :- Keyed(WorldResults(e.worlds), WorldKey, |e.worlds|);
      var lanes :- Keyed(LaneResults(e.lanes, worlds), LaneKey, |e.lanes|);
      Ok(Some(Loaded(e.seed, data.fields.Get("tick", Int(0)), worlds, lanes)))
  }

  /** An empty document loads as None; any other non-mapping fails on .get;
      a mapping without a seed, or with a null one, is rejected. */
  lemma LoadedRejectsNoSeed(data: Value)
    requires WellFormed(data)
    ensures data.Null? ==> LoadedFrom(data) == Ok(None)
    ensures !data.Null? && !data.Obj? ==> LoadedFrom(data) == Fail(MissingComponent("get"))
    ensures data.Obj? && data.fields.Get("seed", Null).Null? ==> LoadedFrom(data) == Fail(Universe(MissingSeed))
  {
    if !data.Null? && !data.Obj? {
      assert EntriesOf(data) == Fail(MissingComponent("get"));
    } else if data.Obj? && data.fields.Get("seed", Null).Null? {
      assert EntriesOf(data) == Fail(Universe(MissingSeed));
    }
  }

  /** A loaded universe keeps the seed and the tick (default 0) as written. */
  lemma LoadedSeed(data: Value)
    requires WellFormed(data) && LoadedFrom(data).Ok? && LoadedFrom(data).value.Some?
    ensures var u := LoadedFrom(data).value.value;
      HasKey(data, "seed") && u.seed == data.fields.vals["seed"] && !u.seed.Null? &&
      u.tick == data.fields.Get("tick", Int(0))
  {
    var e := EntriesOf(data).value;
    assert LoadedFrom(data).value.value.seed == e.seed;
    assert e.seed == data.fields.Get("seed", Null);
  }

  /** Two world entries whose ids a set cannot tell apart reject the document
      with DuplicateWorlds, once the seed is present and every id is readable
      and hashable. */
  lemma LoadedRejectsDuplicateWorlds(data: Value, i: nat, j: nat)
    requires WellFormed(data) && data.Obj? && !data.fields.Get("seed", Null).Null?
    requires Iterated(data.fields.Get("worlds", List([]))).Ok?
    requires var es := Iterated(data.fields.Get("worlds", List([]))).value;
      (forall k :: 0 <= k < |es| ==> HasKey(es[k], "id") && Hashable(es[k].fields.vals["id"])) &&
      i < j < |es| && SetKey(es[i].fields.vals["id"]) == SetKey(es[j].fields.vals["id"])
    ensures LoadedFrom(data) == Fail(Universe(DuplicateWorlds))
  {
    var worldsV := data.fields.Get("worlds", List([]));
    assert WellFormed(worldsV);
    CheckedEntriesRejects(worldsV, DuplicateWorlds, i, j);
  }

  /** Once the worlds pass, two lane entries whose ids a set cannot tell apart
      reject the document with DuplicateLanes. */
  lemma LoadedRejectsDuplicateLanes(data: Value, i: nat, j: nat)
    requires WellFormed(data) && data.Obj? && !data.fields.Get("seed", Null).Null?
    requires Iterated(data.fields.Get("worlds", List([]))).Ok?
    requires var ws := Iterated(data.fields.Get("worlds", List([]))).value;
      IdsOf(ws).Ok? && Unique(IdsOf(ws).value, DuplicateWorlds).Ok?
    requires Iterated(data.fields.Get("lanes", List([]))).Ok?
    requires var es := Iterated(data.fields.Get("lanes", List([]))).value;
      (forall k :: 0 <= k < |es| ==> HasKey(es[k], "id") && Hashable(es[k].fields.vals["id"])) &&
      i < j < |es| && SetKey(es[i].fields.vals["id"]) == SetKey(es[j].fields.vals["id"])
    ensures LoadedFrom(data) == Fail(Universe(DuplicateLanes))
  {
    var worldsV := data.fields.Get("worlds", List([]));
    var lanesV := data.fields.Get("lanes", List([]));
    assert WellFormed(worldsV) && WellFormed(lanesV);
    assert CheckedEntries(worldsV, DuplicateWorlds).Ok?;
    CheckedEntriesRejects(lanesV, DuplicateLanes, i, j);
  }

  /** A loaded universe satisfies what UniverseState needs: worlds and lanes
      each listed once under their own ids, and every lane joining two loaded
      worlds. */
  lemma LoadedSound(data: Value)
    requires WellFormed(data)
    requires LoadedFrom(data).Ok? && LoadedFrom(data).value.Some?
    ensures var u := LoadedFrom(data).value.value;
      u.worlds.Valid() && u.lanes.Valid() &&
      (forall w :: w in u.worlds.vals ==> u.worlds.vals[w].id == w) &&
      (forall l :: l in u.lanes.vals ==>
        u.lanes.vals[l].id == l && u.lanes.vals[l].a in u.worlds.vals && u.lanes.vals[l].b in u.worlds.vals)
  {
    var e := EntriesOf(data).value;
    var worlds := Keyed(WorldResults(e.worlds), WorldKey, |e.worlds|).value;
    var lanes := Keyed(LaneResults(e.lanes, worlds), LaneKey, |e.lanes|).value;
    assert LoadedFrom(data).value.value == Loaded(e.seed, data.fields.Get("tick", Int(0)), worlds, lanes);
    WorldsKeyed(e.worlds);
    LanesJoinWorlds(e.lanes, worlds);
  }

  /** The worlds loop lists each world once under its own id. */
  lemma WorldsKeyed(entries: seq<Value>)
    requires forall i :: 0 <= i < |entries| ==> WellFormed(entries[i])
    requires Keyed(WorldResults(entries), WorldKey, |entries|).Ok?
    ensures var d := Keyed(WorldResults(entries), WorldKey, |entries|).value;
      d.Valid() && forall w :: w in d.vals ==> d.vals[w].id == w
  {
    KeyedValid(WorldResults(entries), WorldKey, |entries|);
    KeyedIds(WorldResults(entries), WorldKey, |entries|);
  }

  /** The lanes loop lists each lane once under its own id, and every lane
      it stores joins two of the given worlds. */
  lemma LanesJoinWorlds(entries: seq<Value>, worlds: Dict<WorldId, WorldV>)
    requires forall i :: 0 <= i < |entries| ==> WellFormed(entries[i])
    requires Keyed(LaneResults(entries, worlds), LaneKey, |entries|).Ok?
    ensures var d := Keyed(LaneResults(entries, worlds), LaneKey, |entries|).value;
      d.Valid() &&
      forall l :: l in d.vals ==> d.vals[l].id == l && d.vals[l].a in worlds.vals && d.vals[l].b in worlds.vals
  {
    var lr := LaneResults(entries, worlds);
    var d := Keyed(lr, LaneKey, |lr|).value;
    KeyedValid(lr, LaneKey, |lr|);
    KeyedIds(lr, LaneKey, |lr|);
    KeyedFrom(lr, LaneKey, |lr|);
    assert lr[..|lr|] == lr;
    forall l | l in d.vals
      ensures d.vals[l].a in worlds.vals && d.vals[l].b in worlds.vals
    {
      var i :| 0 <= i < |lr| && lr[i] == Ok(d.vals[l]);
      assert lr[i] == LaneFrom(entries[i], worlds);
    }
  }

  /** With a successful load, the worlds are the world entries in order, each
      built from its own entry, and every lane entry produced a lane. */
  lemma LoadedInOrder(data: Value)
    requires WellFormed(data)
    requires LoadedFrom(data).Ok? && LoadedFrom(data).value.Some?
    ensures var (e, u) := (EntriesOf(data).value, LoadedFrom(data).value.value);
      |u.worlds.keys| == |e.worlds| &&
      forall i :: 0 <= i < |e.worlds| ==>
        WorldFrom(e.worlds[i]).Ok? && u.worlds.keys[i] == WorldFrom(e.worlds[i]).value.id &&
        u.worlds.keys[i] in u.worlds.vals && u.worlds.vals[u.worlds.keys[i]] == WorldFrom(e.worlds[i]).value
    ensures var (e, u) := (EntriesOf(data).value, LoadedFrom(data).value.value);
      forall i :: 0 <= i < |e.lanes| ==>
        LaneFrom(e.lanes[i], u.worlds).Ok? && LaneFrom(e.lanes[i], u.worlds).value.id in u.lanes.vals
  {
    var e := EntriesOf(data).value;
    var wr := WorldResults(e.worlds);
    var worlds := Keyed(wr, WorldKey, |wr|).value;
    var lr := LaneResults(e.lanes, worlds);
    var lanes := Keyed(lr, LaneKey, |lr|).value;
    assert LoadedFrom(data).value.value == Loaded(e.seed, data.fields.Get("tick", Int(0)), worlds, lanes);
    var ids := IdsOf(e.worlds).value;
    KeyedHasAll(wr, WorldKey, |wr|);
    forall i, j | 0 <= i < j < |wr| ensures WorldKey(wr[i].value) != WorldKey(wr[j].value) {
      assert SetKey(ids[i]) != SetKey(ids[j]);
    }
    KeyedInOrder(wr, WorldKey, |wr|);
    KeyedHasAll(lr, LaneKey, |lr|);
  }

  /** The first lane entry that names an unknown world rejects the document
      with UnknownWorld, naming the lane and the a end when that is unknown,
      else the b end. */
  lemma LoadedRejectsUnknownWorld(data: Value, k: nat)
    requires WellFormed(data) && EntriesOf(data).Ok?
    requires var e := EntriesOf(data).value;
      Keyed(WorldResults(e.worlds), WorldKey, |e.worlds|).Ok? && k < |e.lanes| &&
      var worlds := Keyed(WorldResults(e.worlds), WorldKey, |e.worlds|).value;
      (forall i :: 0 <= i < k ==> LaneFrom(e.lanes[i], worlds).Ok?) &&
      LaneFrom(e.lanes[k], worlds).Fail?
    ensures var e := EntriesOf(data).value;
      var worlds := Keyed(WorldResults(e.worlds), WorldKey, |e.worlds|).value;
      LoadedFrom(data) == Fail(LaneFrom(e.lanes[k], worlds).error)
  {
    var e := EntriesOf(data).value;
    var worlds := Keyed(WorldResults(e.worlds), WorldKey, |e.worlds|).value;
    var lr := LaneResults(e.lanes, worlds);
    KeyedFirstFailure(lr, LaneKey, |lr|, k);
  }

  // ---------------------------------------------------------------------
  // The loops, as the source writes them

  /** for c_id, qty in items: inventory.add(c_id, qty) */
  method FillInventory(inventory: Inventory, items: Dict<string, Value>) returns (r: Result<()>)
    requires items.Valid()
    modifies inventory
    ensures r.Ok? <==> StockFrom(old(inventory.quantities), items, |items.keys|).Ok?
    ensures r.Ok? ==> inventory.quantities == StockFrom(old(inventory.quantities), items, |items.keys|).value
  {
    ghost var start := inventory.quantities;
    var i := 0;
    while i < |items.keys|
      invariant 0 <= i <= |items.keys|
      invariant StockFrom(start, items, i) == Ok(inventory.quantities)
    {
      var c := items.keys[i];
      var qtyV := items.vals[c];
      AddStepIsAdded(inventory.quantities, c, qtyV);
      if !IsNumber(qtyV) {
        StockFromFails(start, items, i + 1, |items.keys|);
        return Fail(TypeMismatch("quantity"));
      }
      var added := inventory.Add(c, NumberOf(qtyV));
      if added.Fail? {
        StockFromFails(start, items, i + 1, |items.keys|);
        return added;
      }
      i := i + 1;
    }
    r := Ok(());
  }

  /** Once the inventory loop has failed it stays failed. */
  lemma {:induction false} StockFromFails(q: Stock, d: Dict<string, Value>, i: nat, n: nat)
    requires d.Valid() && i <= n <= |d.keys|
    requires StockFrom(q, d, i).Fail?
    ensures StockFrom(q, d, n).Fail?
    decreases n - i
  {
    if i < n {
      StockFromFails(q, d, i, n - 1);
    }
  }

  /** for w_data in worlds_data: worlds[world_id] = World(...) */
  method BuildWorlds(entries: seq<Value>) returns (r: Result<Dict<WorldId, WorldV>>)
    requires forall i :: 0 <= i < |entries| ==> WellFormed(entries[i])
    ensures r == Keyed(WorldResults(entries), WorldKey, |entries|)
  {
    ghost var rs := WorldResults(entries);
    var worlds: Dict<WorldId, WorldV> := EmptyDict();
    for i := 0 to |entries|
      invariant Keyed(rs, WorldKey, i) == Ok(worlds)
    {
      var w := WorldFrom(entries[i]);
      if w.Fail? {
        assert rs[i] == w;
        KeyedStops(rs, WorldKey, i, worlds);
        return Fail(w.error);
      }
      assert rs[i] == w;
      KeyedStepIsPut(rs, WorldKey, i, worlds, w.value);
      worlds := worlds.Put(w.value.id, w.value);
    }
    r := Ok(worlds);
  }

  /** for l_data in lanes_data: lanes[lane_id] = Lane(...) */
  method BuildLanes(entries: seq<Value>, worlds: Dict<WorldId, WorldV>) returns (r: Result<Dict<LaneId, LaneV>>)
    requires forall i :: 0 <= i < |entries| ==> WellFormed(entries[i])
    ensures r == Keyed(LaneResults(entries, worlds), LaneKey, |entries|)
  {
    ghost var rs := LaneResults(entries, worlds);
    var lanes: Dict<LaneId, LaneV> := EmptyDict();
    for i := 0 to |entries|
      invariant Keyed(rs, LaneKey, i) == Ok(lanes)
    {
      var l := LaneFrom(entries[i], worlds);
      if l.Fail? {
        assert rs[i] == l;
        KeyedStops(rs, LaneKey, i, lanes);
        return Fail(l.error);
      }
      assert rs[i] == l;
      KeyedStepIsPut(rs, LaneKey, i, lanes, l.value);
      lanes := lanes.Put(l.value.id, l.value);
    }
    r := Ok(lanes);
  }

  /** load_universe, with the two loops run as loops. */
  method LoadUniverse(data: Value) returns (r: Result<Option<Loaded>>)
    requires WellFormed(data)
    ensures r == LoadedFrom(data)
  {
    if data.Null? {
      return Ok(None);
    }
    var e := EntriesOf(data);
    if e.Fail? {
      return Fail(e.error);
    }
    var worlds := BuildWorlds(e.value.worlds);
    if worlds.Fail? {
      return Fail(worlds.error);
    }
    var lanes := BuildLanes(e.value.lanes, worlds.value);
    if lanes.Fail? {
      return Fail(lanes.error);
    }
    r := Ok(Some(Loaded(e.value.seed, data.fields.Get("tick", Int(0)), worlds.value, lanes.value)));
  }
}
