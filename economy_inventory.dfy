// economy/inventory.py: a commodity -> quantity store whose removal clamps
// at the stored amount and which forgets entries that fall below EPSILON.

module EconInventory {
  import opened Base

  type Stock = map<CommodityId, real>

  /** get(commodity, default): the stored amount, or the default when absent. */
  function Amount(q: Stock, c: CommodityId, default: real): real {
    if c in q then q[c] else default
  }

  predicate NonNegative(q: Stock) {
    forall c :: c in q ==> q[c] >= 0.0
  }

  /** Every commodity other than c has the same entry (or absence) in a and b. */
  predicate AgreeExcept(a: Stock, b: Stock, c: CommodityId) {
    (forall d :: d in a && d != c ==> d in b && b[d] == a[d]) &&
    (forall d :: d in b && d != c ==> d in a)
  }

  /** Inventory.add on the stored map. */
  function Added(q: Stock, c: CommodityId, qty: real): (r: Result<Stock>)
    ensures r.Ok? <==> qty >= 0.0
    ensures r.Ok? ==> c in r.value && r.value[c] == Amount(q, c, 0.0) + qty
    ensures r.Ok? ==> AgreeExcept(q, r.value, c)
    ensures r.Ok? && NonNegative(q) ==> NonNegative(r.value)
  {
    if qty < 0.0 then Fail(NegativeQuantity) else Ok(q[c := Amount(q, c, 0.0) + qty])
  }

  datatype Removal = Removal(stock: Stock, removed: real)

  /** Inventory.remove_clamped on the stored map. */
  function RemovedClamped(q: Stock, c: CommodityId, qty: real): (r: Result<Removal>)
    ensures r.Ok? <==> qty >= 0.0
    ensures r.Ok? ==> r.value.removed == Min(qty, Amount(q, c, 0.0))
    ensures r.Ok? ==> var left := Amount(q, c, 0.0) - r.value.removed;
      (left < EPSILON ==> c !in r.value.stock) &&
      (left >= EPSILON ==> c in r.value.stock && r.value.stock[c] == left)
    ensures r.Ok? ==> AgreeExcept(q, r.value.stock, c)
    ensures r.Ok? && NonNegative(q) ==> NonNegative(r.value.stock) && 0.0 <= r.value.removed <= qty
  {
    if qty < 0.0 then Fail(NegativeQuantity)
    else
      var current := Amount(q, c, 0.0);
      var removed := Min(qty, current);
      var left := current - removed;
      Ok(Removal(if left < EPSILON then q - {c} else q[c := left], removed))
  }

  /** Inventory.__setitem__ on the stored map. */
  function Stored(q: Stock, c: CommodityId, qty: real): (r: Result<Stock>)
    ensures r.Ok? <==> qty >= 0.0
    ensures r.Ok? ==> Amount(r.value, c, 0.0) == (if qty < EPSILON then 0.0 else qty)
    ensures r.Ok? ==> (c in r.value <==> qty >= EPSILON)
    ensures r.Ok? ==> AgreeExcept(q, r.value, c)
    ensures r.Ok? && NonNegative(q) ==> NonNegative(r.value)
  {
    if qty < 0.0 then Fail(NegativeQuantity)
    else if qty < EPSILON then Ok(q - {c})
    else Ok(q[c := qty])
  }

  /** A call of one of the three mutating primitives. */
  datatype StockOp =
    | AddOp(c: CommodityId, qty: real)
    | RemoveOp(c: CommodityId, qty: real)
    | SetOp(c: CommodityId, qty: real)

  function ApplyOp(q: Stock, op: StockOp): Result<Stock> {
    match op
    case AddOp(c, qty) => Added(q, c, qty)
    case SetOp(c, qty) => Stored(q, c, qty)
    case RemoveOp(c, qty) =>
      match RemovedClamped(q, c, qty)
      case Ok(rm) => Ok(rm.stock)
      case Fail(e) => Fail(e)
  }

  /** Runs the calls in order; the first one that raises stops the run. */
  function ApplyOps(q: Stock, ops: seq<StockOp>): Result<Stock>
    decreases |ops|
  {
    if ops == [] then Ok(q)
    else
      match ApplyOp(q, ops[0])
      case Ok(q') => ApplyOps(q', ops[1..])
      case Fail(e) => Fail(e)
  }

  /** No sequence of calls that all succeed makes any quantity negative. */
  lemma {:induction false} OpsKeepNonNegative(q: Stock, ops: seq<StockOp>)
    requires NonNegative(q)
    ensures ApplyOps(q, ops).Ok? ==> NonNegative(ApplyOps(q, ops).value)
    decreases |ops|
  {
    if ops != [] {
      match ApplyOp(q, ops[0])
      case Ok(q') =>
        assert NonNegative(q');
        OpsKeepNonNegative(q', ops[1..]);
      case Fail(_) =>
    }
  }

  /** Removing from an absent commodity removes nothing and stores nothing. */
  lemma RemoveAbsentIsNoOp(q: Stock, c: CommodityId, qty: real)
    requires c !in q && qty >= 0.0
    ensures RemovedClamped(q, c, qty) == Ok(Removal(q, 0.0))
  {
    assert q - {c} == q;
  }

  /** Mutable inventory: the class of inventory.py. */
  class Inventory {
    /** The world whose market holds this inventory (proof bookkeeping only). */
    ghost const owner: WorldId
    var quantities: Stock

    constructor (ghost owner: WorldId)
      ensures this.owner == owner && quantities == map[]
    {
      this.owner := owner;
      quantities := map[];
    }

    /** get(commodity_id, default_qty) */
    function Get(c: CommodityId, default: real): (r: real)
      reads this
      ensures c !in quantities ==> r == default
      ensures c in quantities ==> r == quantities[c]
    {
      Amount(quantities, c, default)
    }

    method Add(c: CommodityId, qty: real) returns (r: Result<()>)
      modifies this
      ensures r.Ok? <==> Added(old(quantities), c, qty).Ok?
      ensures r.Ok? ==> quantities == Added(old(quantities), c, qty).value
      ensures r.Fail? ==> r.error == NegativeQuantity && quantities == old(quantities)
    {
      if qty < 0.0 {
        return Fail(NegativeQuantity);
      }
      quantities := quantities[c := Amount(quantities, c, 0.0) + qty];
      return Ok(());
    }

    method RemoveClamped(c: CommodityId, qty: real) returns (r: Result<real>)
      modifies this
      ensures r.Ok? <==> qty >= 0.0
      ensures r.Ok? ==> Ok(Removal(quantities, r.value)) == RemovedClamped(old(quantities), c, qty)
      ensures r.Fail? ==> r.error == NegativeQuantity && quantities == old(quantities)
    {
      if qty < 0.0 {
        return Fail(NegativeQuantity);
      }
      var current := Amount(quantities, c, 0.0);
      var removed := Min(qty, current);
      quantities := quantities[c := current - removed];
      if quantities[c] < EPSILON {
        quantities := quantities - {c};
      }
      assert quantities == RemovedClamped(old(quantities), c, qty).value.stock;
      return Ok(removed);
    }

    /** __setitem__ */
    method SetItem(c: CommodityId, qty: real) returns (r: Result<()>)
      modifies this
      ensures r.Ok? <==> qty >= 0.0
      ensures r.Ok? ==> Ok(quantities) == Stored(old(quantities), c, qty)
      ensures r.Fail? ==> r.error == NegativeQuantity && quantities == old(quantities)
    {
      if qty < 0.0 {
        return Fail(NegativeQuantity);
      }
      quantities := quantities[c := qty];
      if qty < EPSILON {
        quantities := quantities - {c};
      }
      assert quantities == Stored(old(quantities), c, qty).value;
      return Ok(());
    }

    /** to_dict: a copy of the stored map. */
    function ToDict(): map<CommodityId, real>
      reads this
    {
      quantities
    }
  }
}
