/** The subscription state machine of `useRealtimeData(path)`: three state
    cells (`data`, `loading`, `error`) that the effect and the two listener
    callbacks overwrite. The store's listener registration is abstracted to
    the path being listened to; its notifications are method calls. */
module Subscription {
  import opened Values

  /** The three state cells, as one value. */
  datatype Cells = Cells(data: Value, loading: bool, error: Option<string>)

  /** The cells before any effect or notification has run. */
  const Initial: Cells := Cells(Null, true, None)

  /** What can happen to one hook: its effect runs (on mount, or because the
      database handle or the path changed), or its listener is notified. */
  datatype Event =
    | EffectRun(hasDatabase: bool, path: string)
    | Snapshot(value: Value)
    | Failure(message: string)

  /** The effect only listens when both the database handle and the path are
      present: the guard `!database || !path` returns early otherwise. */
  predicate Listens(hasDatabase: bool, path: string) {
    hasDatabase && path != ""
  }

  /** The effect of one event on the cells. */
  function Step(c: Cells, e: Event): Cells {
    match e
    case EffectRun(db, path) => if Listens(db, path) then c.(loading := true) else c
    case Snapshot(v) => Cells(v, false, None)
    case Failure(msg) => c.(loading := false, error := Some(msg))
  }

  /** The cells after a sequence of events, applied in order. */
  function Run(c: Cells, events: seq<Event>): Cells
    decreases |events|
  {
    if events == [] then c else Run(Step(c, events[0]), events[1..])
  }

  lemma {:induction false} RunAppend(c: Cells, events: seq<Event>, e: Event)
    ensures Run(c, events + [e]) == Step(Run(c, events), e)
    decreases |events|
  {
    if events == [] {
      assert [e][1..] == [];
    } else {
      assert (events + [e])[1..] == events[1..] + [e];
      RunAppend(Step(c, events[0]), events[1..], e);
    }
  }

  // An independent description of the cells after a run, read backwards
  // from the most recent event that decides each cell.

  /** `data` holds the payload of the latest snapshot, or its starting value. */
  function LastData(d: Value, events: seq<Event>): Value {
    if events == [] then d
    else match events[|events| - 1]
      case Snapshot(v) => v
      case _ => LastData(d, events[..|events| - 1])
  }

  /** `loading` is true iff the latest event that decides it is an effect run
      that started listening (or, with no such event, it starts true). */
  function LastLoading(l: bool, events: seq<Event>): bool {
    if events == [] then l
    else match events[|events| - 1]
      case EffectRun(db, path) =>
        if Listens(db, path) then true else LastLoading(l, events[..|events| - 1])
      case _ => false
  }

  /** `error` holds the message of the latest notification if it was a
      failure, and is null if it was a snapshot. */
  function LastError(err: Option<string>, events: seq<Event>): Option<string> {
    if events == [] then err
    else match events[|events| - 1]
      case Snapshot(_) => None
      case Failure(msg) => Some(msg)
      case EffectRun(_, _) => LastError(err, events[..|events| - 1])
  }

  /** The last decisive event wins, cell by cell: the final `data` is the
      payload of the last snapshot (a failure keeps the last known value),
      `error` comes from the last notification, and `loading` is false after
      any notification until the next effect run that listens. */
  lemma {:induction false} RunLastWins(c: Cells, events: seq<Event>)
    ensures Run(c, events) == Cells(LastData(c.data, events),
                                    LastLoading(c.loading, events),
                                    LastError(c.error, events))
    decreases |events|
  {
    if events != [] {
      var init := events[..|events| - 1];
      var e := events[|events| - 1];
      assert init + [e] == events;
      RunAppend(c, init, e);
      RunLastWins(c, init);
    }
  }

  /** Effect runs without a database handle or without a path leave every
      cell unchanged. As they register no listener, no notification can follow
      (the callbacks require a listener), so such a hook keeps its initial
      state, `loading` still true. */
  lemma {:induction false} NoListenNoChange(c: Cells, events: seq<Event>)
    requires forall i :: 0 <= i < |events| ==>
      events[i].EffectRun? && !Listens(events[i].hasDatabase, events[i].path)
    ensures Run(c, events) == c
    decreases |events|
  {
    if events != [] {
      NoListenNoChange(c, events[1..]);
    }
  }

  /** Once a notification has arrived, `loading` stays false for as long as
      no effect run starts listening again. */
  lemma {:induction false} SettledStaysSettled(c: Cells, events: seq<Event>)
    requires !c.loading
    requires forall i :: 0 <= i < |events| && events[i].EffectRun? ==>
      !Listens(events[i].hasDatabase, events[i].path)
    ensures !Run(c, events).loading
    decreases |events|
  {
    if events != [] {
      SettledStaysSettled(Step(c, events[0]), events[1..]);
    }
  }

  /** One `useRealtimeData` hook instance. */
  class RealtimeData {
    var data: Value
    var loading: bool
    var error: Option<string>
    /** The path the hook currently listens to, if any. The cleanup that
        releases it runs before each new effect run and on unmount, so a hook
        never holds more than one listener. */
    var listening: Option<string>

    function Current(): Cells
      reads this
    {
      Cells(data, loading, error)
    }

    constructor ()
      ensures data == Null && loading && error == None
      ensures Current() == Initial
      ensures listening == None
    {
      data := Null;
      loading := true;
      error := None;
      listening := None;
    }

    /** The effect, run on mount and whenever the database handle or the path
        changes: the previous listener is released first; then, if both are
        present, `loading` is set and a new listener registered. `data` and
        `error` keep their previous values. */
    method Subscribe(hasDatabase: bool, path: string)
      modifies this
      ensures listening == if Listens(hasDatabase, path) then Some(path) else None
      ensures loading == (Listens(hasDatabase, path) || old(loading))
      ensures data == old(data) && error == old(error)
      ensures Current() == Step(old(Current()), EffectRun(hasDatabase, path))
    {
      listening := None;
      if hasDatabase && path != "" {
        loading := true;
        listening := Some(path);
      }
    }

    /** The value callback, called only while a listener is registered: the
        snapshot replaces `data` wholesale, `loading` ends and any earlier
        error is cleared, whatever the prior state. */
    method OnSnapshot(v: Value)
      requires listening.Some?
      modifies this
      ensures data == v && !loading && error == None
      ensures listening == old(listening)
      ensures Current() == Step(old(Current()), Snapshot(v))
    {
      data := v;
      loading := false;
      error := None;
    }

    /** The failure callback, called only while a listener is registered:
        the message is recorded and `loading` ends; `data` keeps the last
        known value. */
    method OnError(message: string)
      requires listening.Some?
      modifies this
      ensures error == Some(message) && !loading
      ensures data == old(data)
      ensures listening == old(listening)
      ensures Current() == Step(old(Current()), Failure(message))
    {
      error := Some(message);
      loading := false;
    }

    /** The effect's cleanup on unmount: the listener is released and no cell
        changes. */
    method Unmount()
      modifies this
      ensures listening == None
      ensures Current() == old(Current())
    {
      listening := None;
    }
  }
}
