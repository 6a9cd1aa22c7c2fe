/** The mutation wrappers of `useFirebaseMutation`: each runs one store
    operation inside `try`/`catch` and turns whatever happened into a result
    object, so that no exception reaches the caller. The store operation
    itself is abstract: only whether it completed or threw, and with what
    message, is visible here. */
module Mutation {
  import opened Values

  /** How the store call inside the `try` block ended. */
  datatype StoreOutcome = Completed | Threw(message: string)

  /** A write request, as the callers issue it. */
  datatype Request =
    | Write(path: string, value: Value)
    | Push(path: string, value: Value)
    | Update(path: string, value: Value)
    | Delete(path: string)

  /** `{success: true}`, `{success: true, key}` or `{success: false, error}`. */
  datatype MutationResult = MutationResult(success: bool, key: Option<string>, error: Option<string>)

  /** The uniform result shape: an error message is present exactly when the
      call failed, and a key only ever accompanies success. */
  predicate WellShaped(r: MutationResult) {
    && (r.error.Some? <==> !r.success)
    && (r.key.Some? ==> r.success)
  }

  /** The `catch` arm shared by all four wrappers. */
  function Caught(message: string): (r: MutationResult)
    ensures WellShaped(r) && !r.success && r.error == Some(message)
  {
    MutationResult(false, None, Some(message))
  }

  /** `writeData`: `set` at the path. */
  function WriteData(path: string, value: Value, outcome: StoreOutcome): (r: MutationResult)
    ensures WellShaped(r)
    ensures r.success <==> outcome.Completed?
    ensures r.key == None
    ensures outcome.Threw? ==> r.error == Some(outcome.message)
  {
    match outcome
    case Completed => MutationResult(true, None, None)
    case Threw(msg) => Caught(msg)
  }

  /** `pushData`: `push` generates `newKey` under the path and `set` writes
      there; on success the new key is returned. */
  function PushData(path: string, value: Value, newKey: string, outcome: StoreOutcome): (r: MutationResult)
    ensures WellShaped(r)
    ensures r.success <==> outcome.Completed?
    ensures r.success ==> r.key == Some(newKey)
    ensures outcome.Threw? ==> r.error == Some(outcome.message)
  {
    match outcome
    case Completed => MutationResult(true, Some(newKey), None)
    case Threw(msg) => Caught(msg)
  }

  /** `updateData`: a shallow `update` at the path. */
  function UpdateData(path: string, value: Value, outcome: StoreOutcome): (r: MutationResult)
    ensures WellShaped(r)
    ensures r.success <==> outcome.Completed?
    ensures r.key == None
    ensures outcome.Threw? ==> r.error == Some(outcome.message)
  {
    match outcome
    case Completed => MutationResult(true, None, None)
    case Threw(msg) => Caught(msg)
  }

  /** `deleteData`: `remove` at the path. */
  function DeleteData(path: string, outcome: StoreOutcome): (r: MutationResult)
    ensures WellShaped(r)
    ensures r.success <==> outcome.Completed?
    ensures r.key == None
    ensures outcome.Threw? ==> r.error == Some(outcome.message)
  {
    match outcome
    case Completed => MutationResult(true, None, None)
    case Threw(msg) => Caught(msg)
  }

  /** Dispatch a request to its wrapper; `newKey` is the key the store
      generates, used by `pushData` only. */
  function Perform(req: Request, newKey: string, outcome: StoreOutcome): MutationResult {
    match req
    case Write(p, v) => WriteData(p, v, outcome)
    case Push(p, v) => PushData(p, v, newKey, outcome)
    case Update(p, v) => UpdateData(p, v, outcome)
    case Delete(p) => DeleteData(p, outcome)
  }

  /** Every wrapper has the same non-throwing contract: it succeeds exactly
      when the store call completed, otherwise reports the thrown message;
      only `pushData` returns a key, and only on success. */
  lemma UniformResults(req: Request, newKey: string, outcome: StoreOutcome)
    ensures WellShaped(Perform(req, newKey, outcome))
    ensures Perform(req, newKey, outcome).success <==> outcome.Completed?
    ensures Perform(req, newKey, outcome).key.Some? <==> req.Push? && outcome.Completed?
    ensures outcome.Threw? ==> Perform(req, newKey, outcome).error == Some(outcome.message)
  {
  }
}
