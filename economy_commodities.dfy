// economy/commodities.py: the commodity registry.

module EconCommodities {
  import opened Base
  import opened Docs
  import opened Registries

  /** name and perishable are carried as given; the engine never reads them. */
  datatype Commodity = Commodity(id: CommodityId, name: Value, basePrice: real, perishable: Value)

  /** One loaded entry: id, name, base_price and perishable are all required, read in that order. */
  function ParseCommodity(e: Value): (r: Result<(string, Commodity)>)
    ensures r.Ok? ==> HasKey(e, "id") && HasKey(e, "name") && HasKey(e, "base_price") && HasKey(e, "perishable")
    ensures r.Ok? ==> r.value.0 == r.value.1.id && Field(e, "id") == Ok(Str(r.value.0))
    ensures r.Ok? ==> IsNumber(e.fields.vals["base_price"])
    ensures r.Ok? ==> r.value.1.basePrice == NumberOf(e.fields.vals["base_price"])
    ensures !HasKey(e, "id") ==> r.Fail?
  {
    var idv :- Field(e, "id");
    var id :- AsString(idv, "commodity id");
    var name :- Field(e, "name");
    var pv :- Field(e, "base_price");
    var price :- AsNumber(pv, "base_price");
    var per :- Field(e, "perishable");
    Ok((id, Commodity(id, name, price, per)))
  }

  /** Each commodity is registered under its own id. */
  predicate IdsMatch(reg: Dict<CommodityId, Commodity>) {
    forall k :: k in reg.vals ==> reg.vals[k].id == k
  }

  /** The load loop keeps every commodity under its own id. */
  lemma {:induction false} LoadKeepsIdsMatch(d: Dict<CommodityId, Commodity>, data: seq<Value>)
    requires IdsMatch(d)
    ensures IdsMatch(LoadEach(d, data, ParseCommodity).entries)
    decreases |data|
  {
    if data != [] {
      LoadKeepsIdsMatch(d, data[..|data| - 1]);
    }
  }

  class CommodityRegistry {
    var commodities: Dict<CommodityId, Commodity>

    constructor ()
      ensures commodities == EmptyDict()
    {
      commodities := EmptyDict();
    }

    /** The loop of load_from_yaml after the file is parsed; iterating None raises. */
    method Load(data: Value) returns (r: Result<()>)
      modifies this
      ensures Iterated(data).Fail? ==> r.Fail? && commodities == old(commodities)
      ensures !data.Null? && Iterated(data).Ok? ==> Loaded(commodities, r) == LoadEach(old(commodities), Iterated(data).value, ParseCommodity)
    {
      var it := Iterated(data);
      if it.Fail? {
        return Fail(it.error);
      }
      var items := it.value;
      var i := 0;
      while i < |items|
        invariant 0 <= i <= |items|
        invariant Loaded(commodities, Ok(())) == LoadEach(old(commodities), items[..i], ParseCommodity)
      {
        assert items[..i + 1][..i] == items[..i];
        var p := ParseCommodity(items[i]);
        if p.Fail? {
          LoadEachStopped(old(commodities), items, ParseCommodity, i + 1);
          return Fail(p.error);
        }
        commodities := commodities.Put(p.value.0, p.value.1);
        i := i + 1;
      }
      assert items[..i] == items;
      return Ok(());
    }

    /** get: the registered commodity, or ValueError for an unknown id. */
    function Get(id: CommodityId): (r: Result<Commodity>)
      reads this
      ensures r.Ok? <==> id in commodities.vals
      ensures r.Ok? ==> r.value == commodities.vals[id]
      ensures r.Fail? ==> r.error == UnknownCommodity(id)
    {
      if id in commodities.vals then Ok(commodities.vals[id]) else Fail(UnknownCommodity(id))
    }

    /** all_commodities: every registered commodity, in registration order. */
    function AllCommodities(): (cs: seq<Commodity>)
      reads this
      requires commodities.Valid()
      ensures |cs| == |commodities.keys|
      ensures forall i :: 0 <= i < |cs| ==> cs[i] == commodities.vals[commodities.keys[i]]
    {
      commodities.Values()
    }
  }
}
