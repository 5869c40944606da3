// events/model.py and events/registry.py: event definitions and their registry.
// Conditions and effects stay the mappings the document holds; the
// generator and the effect code read their keys when they are evaluated.

module EventRegistry {
  import opened Base
  import opened Docs
  import opened Registries

  datatype EventDef = EventDef(id: EventId, baseWeight: real, conditions: seq<Value>, effects: seq<Value>)

  /** e_data.get(key, []) as a list. */
  function ListField(e: Value, key: string): (r: Result<seq<Value>>)
    requires e.Obj?
    ensures !HasKey(e, key) ==> r == Ok([])
    ensures HasKey(e, key) && e.fields.vals[key].List? ==> r == Ok(e.fields.vals[key].items)
  {
    if key !in e.fields.vals then Ok([])
    else
      var v := e.fields.vals[key];
      if v.List? then Ok(v.items) else Fail(TypeMismatch(key))
  }

  /** One loaded entry: id is required; base_weight defaults to 1.0, conditions and effects to []. */
  function ParseEvent(e: Value): (r: Result<(string, EventDef)>)
    ensures r.Ok? ==> HasKey(e, "id") && Field(e, "id") == Ok(Str(r.value.0)) && r.value.1.id == r.value.0
    ensures r.Ok? && !HasKey(e, "base_weight") ==> r.value.1.baseWeight == 1.0
    ensures r.Ok? && !HasKey(e, "conditions") ==> r.value.1.conditions == []
    ensures r.Ok? && !HasKey(e, "effects") ==> r.value.1.effects == []
  {
    var idv :- Field(e, "id");
    var id :- AsString(idv, "event id");
    var wv := e.fields.Get("base_weight", Float(1.0));
    var w :- AsNumber(wv, "base_weight");
    var conditions :- ListField(e, "conditions");
    var effects :- ListField(e, "effects");
    Ok((id, EventDef(id, w, conditions, effects)))
  }

  class EventRegistry {
    var events: Dict<EventId, EventDef>

    constructor ()
      ensures events == EmptyDict()
    {
      events := EmptyDict();
    }

    /** The loop of load_from_yaml after the file is parsed; empty data raises. */
    method Load(data: Value) returns (r: Result<()>)
      modifies this
      ensures data.Null? ==> r == Fail(EmptyData) && events == old(events)
      ensures Iterated(data).Fail? ==> r.Fail? && events == old(events)
      ensures !data.Null? && Iterated(data).Ok? ==> Loaded(events, r) == LoadEach(old(events), Iterated(data).value, ParseEvent)
    {
      if data.Null? {
        return Fail(EmptyData);
      }
      var it := Iterated(data);
      if it.Fail? {
        return Fail(it.error);
      }
      var items := it.value;
      var i := 0;
      while i < |items|
        invariant 0 <= i <= |items|
        invariant Loaded(events, Ok(())) == LoadEach(old(events), items[..i], ParseEvent)
      {
        assert items[..i + 1][..i] == items[..i];
        var p := ParseEvent(items[i]);
        if p.Fail? {
          LoadEachStopped(old(events), items, ParseEvent, i + 1);
          return Fail(p.error);
        }
        events := events.Put(p.value.0, p.value.1);
        i := i + 1;
      }
      assert items[..i] == items;
      return Ok(());
    }

    /** get: the registered event, or ValueError for an unknown id. */
    function Get(id: EventId): (r: Result<EventDef>)
      reads this
      ensures r.Ok? <==> id in events.vals
      ensures r.Ok? ==> r.value == events.vals[id]
      ensures r.Fail? ==> r.error == UnknownEvent(id)
    {
      if id in events.vals then Ok(events.vals[id]) else Fail(UnknownEvent(id))
    }

    /** all_events: every registered event, in registration order. */
    function AllEvents(): (es: seq<EventDef>)
      reads this
      requires events.Valid()
      ensures |es| == |events.keys|
      ensures forall i :: 0 <= i < |es| ==> es[i] == events.vals[events.keys[i]]
    {
      events.Values()
    }
  }
}
