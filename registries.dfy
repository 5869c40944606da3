// The load loop shared by the three registries (commodities, recipes,
// events): each parsed entry is stored under its id, in document order.

module Registries {
  import opened Base
  import opened Docs

  /** Storing parsed (id, entry) pairs one after the other: registry[id] = entry. */
  function PutAll<T>(d: Dict<string, T>, items: seq<(string, T)>): (r: Dict<string, T>)
    ensures d.Valid() ==> r.Valid()
    decreases |items|
  {
    if items == [] then d
    else PutAll(d, items[..|items| - 1]).Put(items[|items| - 1].0, items[|items| - 1].1)
  }

  /** The last entry with a given id is the one that stays registered. */
  lemma {:induction false} PutAllLastWins<T>(d: Dict<string, T>, items: seq<(string, T)>, i: nat)
    requires i < |items|
    requires forall j :: i < j < |items| ==> items[j].0 != items[i].0
    ensures items[i].0 in PutAll(d, items).vals
    ensures PutAll(d, items).vals[items[i].0] == items[i].1
    decreases |items|
  {
    if i < |items| - 1 {
      var pre := items[..|items| - 1];
      assert forall j :: i < j < |pre| ==> pre[j].0 != pre[i].0 by {
        forall j | i < j < |pre| ensures pre[j].0 != pre[i].0 {
          assert pre[j] == items[j];
        }
      }
      PutAllLastWins(d, pre, i);
      assert pre[i] == items[i];
    }
  }

  /** Exactly the earlier ids and the loaded ids are registered; earlier entries
      whose id is not loaded again keep their value. */
  lemma {:induction false} PutAllKeys<T>(d: Dict<string, T>, items: seq<(string, T)>, k: string)
    ensures k in PutAll(d, items).vals <==> k in d.vals || exists j :: 0 <= j < |items| && items[j].0 == k
    ensures (forall j :: 0 <= j < |items| ==> items[j].0 != k) && k in d.vals ==>
      PutAll(d, items).vals[k] == d.vals[k]
    decreases |items|
  {
    if items != [] {
      var pre := items[..|items| - 1];
      PutAllKeys(d, pre, k);
      if exists j :: 0 <= j < |pre| && pre[j].0 == k {
        var j :| 0 <= j < |pre| && pre[j].0 == k;
        assert items[j].0 == k;
      }
      if exists j :: 0 <= j < |items| && items[j].0 == k {
        var j :| 0 <= j < |items| && items[j].0 == k;
        if j < |pre| { assert pre[j].0 == k; }
      }
    }
  }


  /** When the entries are strings, which no parser accepts, an empty sequence
      loads nothing and succeeds, and any other fails at once and changes nothing. */
  lemma {:induction false} LoadEachStrings<T>(d: Dict<string, T>, data: seq<Value>, parse: Value -> Result<(string, T)>)
    requires forall i :: 0 <= i < |data| ==> data[i].Str? && parse(data[i]).Fail?
    ensures LoadEach(d, data, parse).entries == d
    ensures LoadEach(d, data, parse).outcome.Ok? <==> data == []
    decreases |data|
  {
    if data != [] {
      LoadEachStrings(d, data[..|data| - 1], parse);
    }
  }

  /** Loading a string or a mapping with a parser that needs a mapping per
      entry: `""` and `{}` load nothing and succeed, any other string or
      mapping raises with nothing stored. */
  lemma LoadNonList<T>(d: Dict<string, T>, data: Value, parse: Value -> Result<(string, T)>)
    requires data.Str? || data.Obj?
    requires forall v: Value :: v.Str? ==> parse(v).Fail?
    ensures LoadEach(d, Iterated(data).value, parse).entries == d
    ensures LoadEach(d, Iterated(data).value, parse).outcome.Ok? <==>
      (if data.Str? then data.s == [] else data.fields.keys == [])
  {
    LoadEachStrings(d, Iterated(data).value, parse);
  }

  /** Parses entries in order up to the first failure. */
  function ParseAll<T>(data: seq<Value>, parse: Value -> Result<(string, T)>): (r: Result<seq<(string, T)>>)
    ensures r.Ok? ==> |r.value| == |data|
    ensures r.Ok? ==> forall i :: 0 <= i < |data| ==> parse(data[i]) == Ok(r.value[i])
    ensures r.Ok? <==> forall i :: 0 <= i < |data| ==> parse(data[i]).Ok?
    decreases |data|
  {
    if data == [] then Ok([])
    else
      match ParseAll(data[..|data| - 1], parse)
      case Fail(e) => Fail(e)
      case Ok(pre) =>
        match parse(data[|data| - 1])
        case Fail(e) => Fail(e)
        case Ok(p) => Ok(pre + [p])
  }

  datatype Loaded<T> = Loaded(entries: Dict<string, T>, outcome: Result<()>)

  /** The registry load loop: each entry is parsed and stored; an entry that
      raises stops the loop and leaves the earlier ones registered. */
  function LoadEach<T>(d: Dict<string, T>, data: seq<Value>, parse: Value -> Result<(string, T)>): Loaded<T>
    decreases |data|
  {
    if data == [] then Loaded(d, Ok(()))
    else
      var pre := LoadEach(d, data[..|data| - 1], parse);
      if pre.outcome.Fail? then pre
      else
        match parse(data[|data| - 1])
        case Fail(e) => Loaded(pre.entries, Fail(e))
        case Ok(p) => Loaded(pre.entries.Put(p.0, p.1), Ok(()))
  }

  /** The load succeeds exactly when every entry parses, and then equals storing them all;
      otherwise it reports the error of the first entry that does not parse. */
  lemma {:induction false} LoadEachIsPutAll<T>(d: Dict<string, T>, data: seq<Value>, parse: Value -> Result<(string, T)>)
    ensures LoadEach(d, data, parse).outcome.Ok? <==> ParseAll(data, parse).Ok?
    ensures ParseAll(data, parse).Ok? ==> LoadEach(d, data, parse).entries == PutAll(d, ParseAll(data, parse).value)
    ensures ParseAll(data, parse).Fail? ==> LoadEach(d, data, parse).outcome == Fail(ParseAll(data, parse).error)
    decreases |data|
  {
    if data != [] {
      var pre := data[..|data| - 1];
      LoadEachIsPutAll(d, pre, parse);
      match ParseAll(pre, parse)
      case Fail(e) =>
      case Ok(items) =>
        match parse(data[|data| - 1])
        case Fail(e) =>
        case Ok(p) =>
          var all := items + [p];
          assert all[..|all| - 1] == items;
    }
  }

  /** Once an entry has raised, later entries change nothing. */
  lemma {:induction false} LoadEachStopped<T>(d: Dict<string, T>, data: seq<Value>, parse: Value -> Result<(string, T)>, j: nat)
    requires j <= |data|
    requires LoadEach(d, data[..j], parse).outcome.Fail?
    ensures LoadEach(d, data, parse) == LoadEach(d, data[..j], parse)
    decreases |data| - j
  {
    if j < |data| {
      var pre := data[..|data| - 1];
      assert pre[..j] == data[..j];
      LoadEachStopped(d, pre, parse, j);
    } else {
      assert data[..j] == data;
    }
  }
}
