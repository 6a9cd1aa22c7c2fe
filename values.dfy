/** Values that the real-time store delivers in a snapshot, and the two
    JavaScript notions the hooks apply to them: truthiness and object spread. */
module Values {

  datatype Option<+T> = None | Some(value: T)

  /** A snapshot value. The store holds null, booleans, numbers, strings and
      keyed objects; an object lists its children in the order in which
      `Object.entries` enumerates them. */
  datatype Value =
    | Null
    | Bool(b: bool)
    | Num(n: int)
    | Str(s: string)
    | Obj(children: seq<(string, Value)>)

  /** JavaScript truthiness of a value: null, false, 0 and "" are falsy,
      every object (even an empty one) is truthy. */
  predicate Truthy(v: Value) {
    match v
    case Null => false
    case Bool(b) => b
    case Num(n) => n != 0
    case Str(s) => s != ""
    case Obj(_) => true
  }

  /** The keys that occur in a list of entries. */
  function KeysOf(entries: seq<(string, Value)>): set<string> {
    set i | 0 <= i < |entries| :: entries[i].0
  }

  /** The object built by assigning the entries one after the other, as
      `{...o}` does: a later entry with the same key overwrites an earlier one. */
  function Assign(entries: seq<(string, Value)>): map<string, Value> {
    if entries == [] then map[]
    else
      var last := entries[|entries| - 1];
      Assign(entries[..|entries| - 1])[last.0 := last.1]
  }

  /** The own fields that spreading a value contributes to an object literal.
      Only objects contribute fields here; null, booleans and numbers
      contribute none. */
  function Spread(v: Value): map<string, Value> {
    match v
    case Obj(children) => Assign(children)
    case _ => map[]
  }

  /** Spreading an object yields exactly the keys it lists. */
  lemma {:induction false} AssignKeys(entries: seq<(string, Value)>)
    ensures Assign(entries).Keys == KeysOf(entries)
  {
    if entries != [] {
      var init := entries[..|entries| - 1];
      AssignKeys(init);
      assert KeysOf(entries) == KeysOf(init) + {entries[|entries| - 1].0} by {
        forall k | k in KeysOf(entries) ensures k in KeysOf(init) + {entries[|entries| - 1].0} {
          var i :| 0 <= i < |entries| && entries[i].0 == k;
          if i < |entries| - 1 { assert init[i] == entries[i]; }
        }
        forall k | k in KeysOf(init) ensures k in KeysOf(entries) {
          var i :| 0 <= i < |init| && init[i].0 == k;
          assert entries[i] == init[i];
        }
      }
    }
  }

  /** A field of a spread object holds the value of the LAST entry that
      carries that key. */
  lemma {:induction false} AssignLast(entries: seq<(string, Value)>, i: nat)
    requires i < |entries|
    requires forall j :: i < j < |entries| ==> entries[j].0 != entries[i].0
    ensures entries[i].0 in Assign(entries)
    ensures Assign(entries)[entries[i].0] == entries[i].1
  {
    if i < |entries| - 1 {
      var init := entries[..|entries| - 1];
      forall j | i < j < |init| ensures init[j].0 != init[i].0 {
        assert init[j] == entries[j] && init[i] == entries[i];
      }
      AssignLast(init, i);
      assert init[i] == entries[i];
    }
  }
}
