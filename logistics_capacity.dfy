// logistics/capacity.py: per-lane used capacity for the current tick.

module LogisticsCapacity {
  import opened Base

  type Usage = map<LaneId, real>

  /** used_capacity[lane] read through the defaultdict (0.0 when unseen). */
  function UsedOn(u: Usage, lane: LaneId): real {
    if lane in u then u[lane] else 0.0
  }

  /** get_remaining_capacity on a usage map. */
  function Remaining(u: Usage, lane: LaneId, total: real): (r: real)
    ensures r >= 0.0
    ensures r >= total - UsedOn(u, lane)
    ensures r == 0.0 || r == total - UsedOn(u, lane)
  {
    Max(0.0, total - UsedOn(u, lane))
  }

  /** add_used_capacity on a usage map (defaultdict form). */
  function Used(u: Usage, lane: LaneId, qty: real): (v: Usage)
    ensures lane in v && v[lane] == UsedOn(u, lane) + qty
    ensures forall l :: l != lane ==> UsedOn(v, l) == UsedOn(u, l)
  {
    u[lane := UsedOn(u, lane) + qty]
  }

  /** A run of add_used_capacity calls. */
  function UsedAll(u: Usage, adds: seq<(LaneId, real)>): Usage
    decreases |adds|
  {
    if adds == [] then u else UsedAll(Used(u, adds[0].0, adds[0].1), adds[1..])
  }

  /** After reset, every lane's remaining capacity is max(0, total). */
  lemma RemainingAfterReset(lane: LaneId, total: real)
    ensures Remaining(map[], lane, total) == Max(0.0, total)
  {
  }

  /** With non-negative additions, remaining capacity never grows between resets. */
  lemma {:induction false} RemainingNonIncreasing(u: Usage, adds: seq<(LaneId, real)>, lane: LaneId, total: real)
    requires forall i :: 0 <= i < |adds| ==> adds[i].1 >= 0.0
    ensures UsedOn(UsedAll(u, adds), lane) >= UsedOn(u, lane)
    ensures Remaining(UsedAll(u, adds), lane, total) <= Remaining(u, lane, total)
    decreases |adds|
  {
    if adds != [] {
      var u' := Used(u, adds[0].0, adds[0].1);
      assert UsedOn(u', lane) >= UsedOn(u, lane);
      assert forall i :: 0 <= i < |adds[1..]| ==> adds[1..][i].1 >= 0.0 by {
        forall i | 0 <= i < |adds[1..]| ensures adds[1..][i].1 >= 0.0 {
          assert adds[1..][i] == adds[i + 1];
        }
      }
      RemainingNonIncreasing(u', adds[1..], lane, total);
    }
  }

  class LaneCapacity {
    var used: Usage
    /** True for the defaultdict a new tracker holds; false once from_dict
        has replaced it by a plain dict, whose unseen keys raise KeyError. */
    var defaults: bool

    constructor ()
      ensures used == map[] && defaults
    {
      used := map[];
      defaults := true;
    }

    method AddUsedCapacity(lane: LaneId, qty: real) returns (r: Result<()>)
      modifies this
      ensures defaults == old(defaults)
      ensures r.Fail? <==> !defaults && lane !in old(used)
      ensures r.Fail? ==> r.error == MissingKey(lane) && used == old(used)
      ensures r.Ok? ==> used == Used(old(used), lane, qty)
    {
      if !defaults && lane !in used {
        return Fail(MissingKey(lane));
      }
      used := used[lane := UsedOn(used, lane) + qty];
      return Ok(());
    }

    /** Reading through the defaultdict inserts 0.0 for an unseen lane; no used value changes. */
    method GetRemainingCapacity(lane: LaneId, total: real) returns (r: Result<real>)
      modifies this
      ensures defaults == old(defaults)
      ensures r.Fail? <==> !defaults && lane !in old(used)
      ensures r.Fail? ==> r.error == MissingKey(lane) && used == old(used)
      ensures r.Ok? ==> r.value == Remaining(old(used), lane, total)
      ensures r.Ok? ==> used == (if lane in old(used) then old(used) else old(used)[lane := 0.0])
      ensures forall l :: UsedOn(used, l) == UsedOn(old(used), l)
    {
      if !defaults && lane !in used {
        return Fail(MissingKey(lane));
      }
      if lane !in used {
        used := used[lane := 0.0];
      }
      return Ok(Max(0.0, total - used[lane]));
    }

    method Reset()
      modifies this
      ensures used == map[] && defaults == old(defaults)
    {
      used := map[];
    }
  }
}
