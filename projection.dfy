/** The list projection of `useRealtimeList(path)`: the keyed snapshot held in
    a `useRealtimeData` hook's `data` cell becomes an ordered list of records,
    each the child's fields with its key exposed as `id`. */
module Projection {
  import opened Values
  import opened Subscription

  /** A projected record: an object from field names to values. */
  type Record = map<string, Value>

  const IdField: string := "id"

  /** The record `{ id: key, ...child }`. The spread comes after `id`, so a
      child that carries its own `id` field overrides the key. */
  function ToRecord(key: string, child: Value): (r: Record)
    ensures r.Keys == {IdField} + Spread(child).Keys
    ensures forall f :: f in Spread(child) ==> r[f] == Spread(child)[f]
    ensures IdField !in Spread(child) ==> r[IdField] == Str(key)
  {
    map[IdField := Str(key)] + Spread(child)
  }

  /** The key/child pairs that `Object.entries` enumerates, in order. */
  function Entries(data: Value): seq<(string, Value)> {
    match data
    case Obj(children) => children
    case _ => []
  }

  /** `data ? Object.entries(data).map(([key, value]) => ({id: key, ...value})) : []` */
  function Project(data: Value): (r: seq<Record>)
    ensures !Truthy(data) ==> r == []
    ensures |r| == |Entries(data)|
  {
    if Truthy(data) then
      var es := Entries(data);
      seq(|es|, i requires 0 <= i < |es| => ToRecord(es[i].0, es[i].1))
    else []
  }

  /** The `id` of every record, in list order. */
  function Ids(records: seq<Record>): seq<Option<Value>> {
    seq(|records|, i requires 0 <= i < |records| =>
      if IdField in records[i] then Some(records[i][IdField]) else None)
  }

  /** The projection keeps the snapshot's order: record i comes from the i-th
      child, holds exactly the child's fields plus `id`, and each field holds
      the value the child gives it (the last one, should the child repeat a
      field). This includes `id` itself when the child carries one. */
  lemma ProjectedFields(children: seq<(string, Value)>, i: nat, fields: seq<(string, Value)>, j: nat)
    requires i < |children| && children[i].1 == Obj(fields)
    requires j < |fields|
    requires forall k :: j < k < |fields| ==> fields[k].0 != fields[j].0
    ensures |Project(Obj(children))| == |children|
    ensures Project(Obj(children))[i].Keys == {IdField} + KeysOf(fields)
    ensures fields[j].0 in Project(Obj(children))[i]
    ensures Project(Obj(children))[i][fields[j].0] == fields[j].1
  {
    AssignKeys(fields);
    AssignLast(fields, j);
  }

  /** A child without an `id` field of its own gets its key as `id`. */
  lemma ProjectedIdIsKey(children: seq<(string, Value)>, i: nat)
    requires i < |children|
    requires IdField !in Spread(children[i].1).Keys
    ensures |Project(Obj(children))| == |children|
    ensures Project(Obj(children))[i][IdField] == Str(children[i].0)
  {
  }

  /** A child whose fields do not include `id` has no own `id` to override the key. */
  lemma NoIdFieldKeepsKey(fields: seq<(string, Value)>)
    requires forall k :: 0 <= k < |fields| ==> fields[k].0 != IdField
    ensures IdField !in Spread(Obj(fields))
  {
    AssignKeys(fields);
  }

  /** When no child carries an `id` field, the ids of the list are the
      snapshot's keys, in the snapshot's order. */
  lemma IdsAreKeys(children: seq<(string, Value)>)
    requires forall i :: 0 <= i < |children| ==> IdField !in Spread(children[i].1)
    ensures Ids(Project(Obj(children))) == seq(|children|, i requires 0 <= i < |children| => Some(Str(children[i].0)))
  {
  }

  /** A child added at the end of the snapshot (as a store-generated key is)
      adds its record at the end of the list and leaves the others alone. */
  lemma ProjectAppend(children: seq<(string, Value)>, key: string, child: Value)
    ensures Project(Obj(children + [(key, child)])) == Project(Obj(children)) + [ToRecord(key, child)]
  {
  }

  /** The state `useRealtimeList` returns. */
  datatype ListState = ListState(list: seq<Record>, loading: bool, error: Option<string>)

  /** `useRealtimeList`: the projection of the hook's `data`, with its
      `loading` and `error` passed through unchanged. */
  function ListOf(c: Cells): (s: ListState)
    ensures |s.list| == |Entries(c.data)|
    ensures s.loading == c.loading && s.error == c.error
  {
    ListState(Project(c.data), c.loading, c.error)
  }

  /** After any run of events the list is the projection of the latest
      snapshot: a failure notification keeps the last known list. */
  lemma ListIsLatestSnapshot(c: Cells, events: seq<Event>)
    ensures ListOf(Run(c, events)).list == Project(LastData(c.data, events))
  {
    RunLastWins(c, events);
  }
}
