# IoT Dashboard: real-time subscription and view derivation, in Dafny

This project models the client-side core of a browser dashboard that shows
sensor readings from a real-time tree-structured store:

- **`useRealtimeData(path)`** (module `Subscription`): three state cells,
  `data`, `loading` and `error`. The hook's effect and the two listener callbacks
  overwrite them. The class `RealtimeData` holds the cells and the path it
  currently listens to. Its methods `Subscribe` (the effect), `OnSnapshot` and
  `OnError` (the callbacks) and `Unmount` (the cleanup) state exactly which cells
  change. They are tied to a pure `Step` function. The lemmas about `Run` say what
  any sequence of events leaves behind.
- **`useRealtimeList(path)`** (module `Projection`): the pure projection of a keyed
  snapshot into an ordered list of records `{id: key, ...child}`. It keeps the
  snapshot's entry order. A child's own `id` field overrides the key. A falsy
  snapshot gives the empty list.
- **`useFirebaseMutation`** (module `Mutation`): `writeData`, `pushData`,
  `updateData` and `deleteData`. Each one turns the outcome of an abstract store
  call (it completed, or it threw a message) into the uniform result
  `{success, key?, error?}`. Every throw that carries a message is caught and
  reported, so it never reaches the caller.
- **The Dashboard component** (module `Dashboard`): the latest reading, the
  history table (the last 10 logs, newest first, with alternating row
  backgrounds), the screen chosen by precedence (spinner, then error, then main
  view), and the `connectionStatus` cell. The two button handlers drive that cell,
  and it maps to a colour and a label. Each handler is split at its `await`. A
  `Begin…` method does what happens before the write is awaited. `FinishWrite`
  does what happens after it settles. Writes can therefore settle in any order,
  and the lemma `StatusIsMostRecent` covers every interleaving.
- **The sample data** (module `Fixture`): the two sample logs, run through the
  projection and the dashboard derivations.

Module `Values` holds the snapshot value type. It also holds the two JavaScript
notions the hooks rely on: truthiness, and the object spread `{...o}`, in which a
later key overwrites an earlier one.

## Model

| member | source | states |
|---|---|---|
| `Values.AssignKeys` | hooks/useFirebase.ts:41 | spreading an object yields exactly the keys it lists |
| `Values.AssignLast` | hooks/useFirebase.ts:41 | a spread field holds the value of the last entry carrying that key |
| `Subscription.RealtimeData.constructor` | hooks/useFirebase.ts:9-11 | before any effect or notification, `data` is null, `loading` is true, `error` is null, and no listener is held |
| `Subscription.RealtimeData.Subscribe` | hooks/useFirebase.ts:13-31 | the previous listener is released. With a database handle and a non-empty path, `loading` becomes true and a listener on that path is registered. Otherwise no cell changes. `data` and `error` always keep their values |
| `Subscription.RealtimeData.OnSnapshot` | hooks/useFirebase.ts:19-22 | only while a listener is registered: `data` becomes the snapshot, `loading` false and `error` null, whatever the prior state |
| `Subscription.RealtimeData.OnError` | hooks/useFirebase.ts:23-26 | only while a listener is registered: `error` becomes the message and `loading` false. `data` keeps the last known value |
| `Subscription.RealtimeData.Unmount` | hooks/useFirebase.ts:28-30 | the cleanup releases the listener and changes no cell |
| `Subscription.RunLastWins` | hooks/useFirebase.ts:13-26 | after any event sequence, each cell is decided by the latest event that decides it. `data` is the last snapshot's payload, `error` comes from the last notification, and `loading` is true only after a listening effect run with no notification since |
| `Subscription.NoListenNoChange` | hooks/useFirebase.ts:14 | effect runs without a database handle or path leave every cell unchanged, so `loading` stays true |
| `Subscription.SettledStaysSettled` | hooks/useFirebase.ts:19-26 | once a notification has arrived, `loading` stays false until an effect run listens again |
| `Projection.ToRecord` | hooks/useFirebase.ts:39-42 | a record holds `id` plus exactly the child's spread fields, with their values. `id` is the key unless the child has its own `id` |
| `Projection.Project` | hooks/useFirebase.ts:39-42 | a falsy snapshot projects to `[]`, and otherwise there is one record per entry |
| `Projection.ProjectedFields` | hooks/useFirebase.ts:39-42 | record i comes from the i-th child. It has the keys `id` plus the child's fields, each field with the child's (last) value, including a child's own `id` that overrides the key |
| `Projection.ProjectedIdIsKey` | hooks/useFirebase.ts:40-41 | a child without its own `id` field gets its key as `id` |
| `Projection.NoIdFieldKeepsKey` | hooks/useFirebase.ts:40-41 | a child none of whose fields is named `id` contributes no `id` |
| `Projection.IdsAreKeys` | hooks/useFirebase.ts:39-42 | when no child carries `id`, the list's ids are the snapshot's keys in the snapshot's order |
| `Projection.ProjectAppend` | hooks/useFirebase.ts:39-42 | a child appended to the snapshot appends its record to the list and leaves the others unchanged |
| `Projection.ListOf` | hooks/useFirebase.ts:36-45 | the list has one record per entry, and `loading` and `error` pass through unchanged |
| `Projection.ListIsLatestSnapshot` | hooks/useFirebase.ts:36-44 | after any event sequence the list is the projection of the latest snapshot, so a failure keeps the last known list |
| `Mutation.Caught` | hooks/useFirebase.ts:55-57 | the catch arm gives `{success: false, error: message}` |
| `Mutation.WriteData` | hooks/useFirebase.ts:50-58 | success exactly when `set` completed. No key. A throw becomes `{success: false, error}` |
| `Mutation.PushData` | hooks/useFirebase.ts:60-69 | success exactly when the write completed, and then the generated key is returned. A throw becomes `{success: false, error}` |
| `Mutation.UpdateData` | hooks/useFirebase.ts:71-79 | success exactly when `update` completed. No key. A throw becomes `{success: false, error}` |
| `Mutation.DeleteData` | hooks/useFirebase.ts:81-89 | success exactly when `remove` completed. No key. A throw becomes `{success: false, error}` |
| `Mutation.UniformResults` | hooks/useFirebase.ts:50-89 | all four wrappers share the non-throwing contract. An error is present iff the call failed, and a key is present iff the request is a push that succeeded |
| `Dashboard.Latest` | components/Dashboard.tsx:56 | the latest reading is null exactly when there are no logs, and otherwise it is the last log |
| `Dashboard.Reverse` | components/Dashboard.tsx:157 | reversing keeps the length |
| `Dashboard.ReverseAt` | components/Dashboard.tsx:157 | element k of the reversal is element n-1-k of the input |
| `Dashboard.HistoryWindowIsRecentFirst` | components/Dashboard.tsx:157 | the table window is exactly the last min(n, 10) logs in reverse order, so row 0 is the last log |
| `Dashboard.HistoryTable` | components/Dashboard.tsx:157-160 | row i shows log n-1-i and is white iff i is even. The first row is white and shows the latest reading |
| `Dashboard.IndicatorDistinguishes` | components/Dashboard.tsx:93-100 | the green/red/yellow colours and the "Connected"/"Connection Error"/"Checking..." labels each tell the three statuses apart |
| `Dashboard.StatusIsMostRecent` | components/Dashboard.tsx:18-53 | under any interleaving of handler starts and write settlements, the status is the outcome of the latest settled write, unless a connection test started after it, in which case it is `checking` |
| `Dashboard.UpdatesNeverCheck` | components/Dashboard.tsx:20-38 | without a connection test, a status other than `checking` never shows `checking` again |
| `Dashboard.TraceEndsInStatusAfter` | components/Dashboard.tsx:18-53 | the last status a sequence of handler events shows is the status after the sequence |
| `Dashboard.HandlerTraces` | components/Dashboard.tsx:20-53 | a test shows `checking` and then the outcome. An update shows the unchanged status and then the outcome |
| `Dashboard.Render` | components/Dashboard.tsx:58-87 | the spinner shows iff the dashboard subscription is loading, whatever its error. Otherwise the error screen shows iff the error is a non-empty message, and it shows that message. Otherwise the main view shows |
| `Dashboard.PanelPlaceholders` | components/Dashboard.tsx:107-176 | each panel shows logs iff there are any. Without logs, it shows its loading placeholder iff the logs subscription is loading, and its "no data" placeholder otherwise |
| `Dashboard.LogsErrorNeverShown` | components/Dashboard.tsx:15-16 | the screen does not depend on the logs subscription's error |
| `Dashboard.MainViewAgrees` | components/Dashboard.tsx:56-160 | in the main view with logs present, the reading panel shows the last projected log and the table's first row is that same log |
| `Dashboard.PushedLogIsLatest` | components/Dashboard.tsx:56-157 | a log appended to the snapshot becomes the latest reading and the table's first row |
| `Dashboard.DashboardComponent.constructor` | components/Dashboard.tsx:15-18 | two distinct fresh hook instances in their initial state, and the status starts as `checking` |
| `Dashboard.DashboardComponent.Mount` | components/Dashboard.tsx:15-16 | each hook's effect subscribes to its own path (`dashboard`, `lionbit/device01/logs`). The status is unchanged |
| `Dashboard.DashboardComponent.BeginUpdateData` | components/Dashboard.tsx:20-30 | before its await, the update writes to `dashboard` and leaves the status alone |
| `Dashboard.DashboardComponent.BeginTestConnection` | components/Dashboard.tsx:40-45 | before its await, the test sets `checking` and writes to `test` |
| `Dashboard.DashboardComponent.FinishWrite` | components/Dashboard.tsx:32-52 | after the await, the status becomes `connected` on success and `error` on failure |
| `Fixture.SampleDashboard` | firebase-test-data.js:8-22 | the sample logs project to ids `-OkXCiWQhcGEOwy7FpwQ` then `-OkXCiWQhcGEOwy7FpwR`. The latest reading is the second log, and the table is the second log then the first |

## Left out

- The store library (`ref`, `onValue`, `off`, `set`, `push`, `update`, `remove`) is not modelled. It is foreign code. Notifications are method calls. A write's outcome is a `StoreOutcome` parameter, and the key `push` generates is a parameter.
- `off(dataRef)` releases every listener at that location, including other hooks observing the same path. The model tracks one listener per hook and not the store's listener table.
- React's scheduling is not modelled. `Subscribe` stands for one run of the effect, which happens on mount or when the database handle or the path changes. React's dependency comparison and render batching are not modelled.
- The async interleaving of writes is modelled only through the split of each handler at its `await`. Timeouts and hung requests simply mean that `FinishWrite` is never called.
- Numbers are modelled as integers. The store's floating-point numbers and the falsy `NaN` are not modelled.
- `Values.Spread`: spreading a string child contributes its characters as indexed fields in JavaScript. The model gives a non-object child no fields, which is exact for null, booleans and numbers. For the same reason, a truthy string snapshot projects to `[]` instead of one record per character.
- `Object.entries` lists integer-like keys first. The store also turns objects with numeric keys into arrays. The model takes the entries in the order the snapshot lists them.
- `Mutation.Caught`: the model assumes every throw carries a message string. A thrown object that is not an `Error` gives `error: undefined`. A thrown `null` or `undefined` makes `(error as Error).message` itself throw inside the `catch`, so the wrapper's promise rejects, and a connection test would then stay on `checking`. Neither case is modelled.
- Random metric generation, `new Date().toISOString()` and `toLocaleString` are not modelled. They are nondeterministic or locale formatting, so the payloads written by the two handlers are parameters.
- The dashboard-status and metrics panels (`dashboardData?.status || 'No data'` and so on), the JSX layout, CSS classes other than the status and stripe mapping, and the text are presentation, so they are not modelled.
- `console.error` logging is not modelled.
- contexts/FirebaseContext.tsx is not part of this model. It is context plumbing whose only logic is throwing when no provider is present.
- A trailing 20-entry chart window, and a history table of 8 entries, are sometimes described for this dashboard. components/Dashboard.tsx has no chart and shows 10 entries, and the model follows the code.
- The code sets `loading` back to true on every listening effect run. So a subscription can return to "pending" after it has settled, and the model follows the code.
