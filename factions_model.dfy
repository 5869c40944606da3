// factions/model.py: factions, the per-world faction state and the
// hysteresis rule that decides who controls a world.

module FactionModel {
  import opened Base
  import opened Docs

  const DEFAULT_GAIN: real := 0.7
  const DEFAULT_LOSS: real := 0.4
  /** The Faction defaults from_dict relies on for the fields it does not read. */
  const DEFAULT_COLOR: string := "#CCCCCC"
  const DEFAULT_RESOURCE_DESIRE: real := 0.5

  /** A faction; traits is a set, kept here in its iteration order without repeats. */
  datatype Faction = Faction(
    id: FactionId,
    name: Value,
    color: string,
    traits: seq<string>,
    weights: Dict<string, Value>,
    capitalWorld: Option<WorldId>,
    resourceDesire: real)

  datatype FactionStateV = FactionStateV(
    influence: Dict<FactionId, real>,
    garrison: map<FactionId, real>,
    defaults: bool,
    control: Option<FactionId>,
    gain: real,
    loss: real)

  /** max(influence, key=influence.get): the first key, in iteration order,
      whose value is maximal. */
  function Leader(keys: seq<FactionId>, vals: map<FactionId, real>): (f: FactionId)
    requires |keys| > 0 && forall k :: k in keys ==> k in vals
    ensures f in keys
    decreases |keys|
  {
    if |keys| == 1 then keys[0]
    else
      var best := Leader(keys[..|keys| - 1], vals);
      var last := keys[|keys| - 1];
      if vals[last] > vals[best] then last else best
  }

  /** The leader's influence is maximal, and every key before it has strictly less. */
  lemma {:induction false} LeaderIsFirstMaximum(keys: seq<FactionId>, vals: map<FactionId, real>)
    requires |keys| > 0 && forall k :: k in keys ==> k in vals
    ensures forall k :: k in keys ==> vals[k] <= vals[Leader(keys, vals)]
    ensures exists i :: (0 <= i < |keys| && keys[i] == Leader(keys, vals) &&
                        forall j :: 0 <= j < i ==> vals[keys[j]] < vals[Leader(keys, vals)])
    decreases |keys|
  {
    if |keys| == 1 {
      assert keys[0] == Leader(keys, vals);
    } else {
      var pre := keys[..|keys| - 1];
      LeaderIsFirstMaximum(pre, vals);
      var best := Leader(pre, vals);
      var last := keys[|keys| - 1];
      var i :| 0 <= i < |pre| && pre[i] == best && forall j :: 0 <= j < i ==> vals[pre[j]] < vals[best];
      forall k | k in keys ensures vals[k] <= vals[Leader(keys, vals)] {
        if k != last {
          var m :| 0 <= m < |keys| && keys[m] == k;
          assert pre[m] == k;
        }
      }
      if vals[last] > vals[best] {
        forall j | 0 <= j < |keys| - 1 ensures vals[keys[j]] < vals[last] {
          assert keys[j] == pre[j] && pre[j] in pre;
        }
        assert keys[|keys| - 1] == Leader(keys, vals);
      } else {
        assert keys[i] == best == Leader(keys, vals);
        forall j | 0 <= j < i ensures vals[keys[j]] < vals[best] {
          assert keys[j] == pre[j];
        }
      }
    }
  }

  /** resolve_control on the state value: the new controller. */
  function ResolvedControl(s: FactionStateV): Option<FactionId>
    requires s.influence.Valid()
  {
    if s.influence.keys == [] then None
    else
      var leader := Leader(s.influence.keys, s.influence.vals);
      var high := s.influence.vals[leader];
      if s.control.None? then
        (if high >= s.gain then Some(leader) else None)
      else if s.control.value == leader then s.control
      else if high >= s.gain && s.influence.Get(s.control.value, 0.0) < s.loss then Some(leader)
      else s.control
  }

  /** The controller after resolving is nobody, the old controller or the
      influence leader; and a controlled world never reverts to no controller
      while it has any influence. */
  lemma ResolvedControlChoices(s: FactionStateV)
    requires s.influence.Valid()
    ensures ResolvedControl(s) == None || ResolvedControl(s) == s.control ||
      (s.influence.keys != [] && ResolvedControl(s) == Some(Leader(s.influence.keys, s.influence.vals)))
    ensures s.influence.keys != [] && s.control.Some? ==> ResolvedControl(s).Some?
  {
  }

  /** The two thresholds of the hysteresis. A controller whose influence is at
      least the loss threshold keeps the world. Control passes to a new
      faction only when that faction leads every other with at least the gain
      threshold and the old controller, if any, is below the loss threshold;
      and a strict leader at or above the gain threshold does take such a world. */
  lemma ResolvedControlThresholds(s: FactionStateV)
    requires s.influence.Valid()
    ensures s.influence.keys != [] && s.control.Some? && s.influence.Get(s.control.value, 0.0) >= s.loss ==>
      ResolvedControl(s) == s.control
    ensures ResolvedControl(s).Some? && ResolvedControl(s) != s.control ==>
      var f := ResolvedControl(s).value;
      f in s.influence.vals && s.influence.vals[f] >= s.gain &&
      (forall k :: k in s.influence.vals ==> s.influence.vals[k] <= s.influence.vals[f]) &&
      (s.control.None? || s.influence.Get(s.control.value, 0.0) < s.loss)
    ensures forall f ::
      (f in s.influence.vals && s.influence.vals[f] >= s.gain &&
       (forall k :: k in s.influence.vals && k != f ==> s.influence.vals[k] < s.influence.vals[f]) &&
       (s.control.None? || s.influence.Get(s.control.value, 0.0) < s.loss)) ==>
      ResolvedControl(s) == Some(f)
  {
    var inf := s.influence;
    if inf.keys != [] {
      LeaderIsFirstMaximum(inf.keys, inf.vals);
      var leader := Leader(inf.keys, inf.vals);
      forall f | f in inf.vals && inf.vals[f] >= s.gain &&
        (forall k :: k in inf.vals && k != f ==> inf.vals[k] < inf.vals[f]) &&
        (s.control.None? || inf.Get(s.control.value, 0.0) < s.loss)
        ensures ResolvedControl(s) == Some(f)
      {
        assert f in inf.keys;
        assert inf.vals[f] <= inf.vals[leader];
      }
    }
  }

  class WorldFactionState {
    /** The world holding this state (proof bookkeeping only). */
    ghost const owner: WorldId
    var influence: Dict<FactionId, real>
    var garrison: map<FactionId, real>
    /** True while influence and garrison are the defaultdicts of a new state;
        false once from_dict has replaced them by plain dicts. */
    var defaults: bool
    var control: Option<FactionId>
    var gain: real
    var loss: real

    /** WorldFactionState() with its defaults. */
    constructor (ghost owner: WorldId)
      ensures this.owner == owner
      ensures V() == FactionStateV(EmptyDict(), map[], true, None, DEFAULT_GAIN, DEFAULT_LOSS)
    {
      this.owner := owner;
      influence := EmptyDict();
      garrison := map[];
      defaults := true;
      control := None;
      gain := DEFAULT_GAIN;
      loss := DEFAULT_LOSS;
    }

    /** The state rebuilt by from_dict, with plain dictionaries. */
    constructor Restored(ghost owner: WorldId, influence: Dict<FactionId, real>, garrison: map<FactionId, real>,
                         control: Option<FactionId>, gain: real, loss: real)
      ensures this.owner == owner
      ensures V() == FactionStateV(influence, garrison, false, control, gain, loss)
    {
      this.owner := owner;
      this.influence := influence;
      this.garrison := garrison;
      defaults := false;
      this.control := control;
      this.gain := gain;
      this.loss := loss;
    }

    function V(): FactionStateV
      reads this
    {
      FactionStateV(influence, garrison, defaults, control, gain, loss)
    }

    method ResolveControl()
      requires influence.Valid()
      modifies this
      ensures V() == old(V()).(control := ResolvedControl(old(V())))
    {
      if influence.keys == [] {
        control := None;
        return;
      }
      var leader := Leader(influence.keys, influence.vals);
      var high := influence.vals[leader];
      if control.None? {
        if high >= gain {
          control := Some(leader);
        }
      } else if control.value == leader {
      } else {
        if high >= gain && influence.Get(control.value, 0.0) < loss {
          control := Some(leader);
        }
      }
    }
  }
}
