# Analytics event tracker (Backstage `core-plugin-api`)

A Dafny model of Backstage's analytics `Tracker`. The tracker takes the analytics
events that plugins capture and forwards them to the app's analytics API, with
two internal exceptions:

- a `_routable-extension-rendered` event is never forwarded; its context is
  remembered in a shared buffer of render records instead;
- a `navigate` event on a "gathered" mount point owned by the `root` plugin is
  held back in a second shared buffer. The next real event first flushes it, as
  one event enriched with the context of the latest render record.

Both buffers are module-level arrays, so every tracker instance shares them. The
internal `_element` context key is stripped from every context the tracker
passes on.

The model has four modules:

- `Wrappers` (`wrappers.dfy`): the `Option` type. It stands for JavaScript's
  `undefined` as an absent option and as the result of `pop()` on an empty array.
- `Analytics` (`analytics.dfy`): the values (contexts, events, render records,
  the two buffers) and a functional specification of one `captureEvent` call.
  `Step` takes the caller's context, the buffers and the call's arguments. It
  returns the buffers afterwards and the events handed to the sink, in order.
  `Run` folds `Step` over a sequence of calls. Each call carries its caller's
  context, so several trackers sharing the buffers are covered.
- `TrackerProperties` (`tracker_properties.dfy`): what one call does in each of
  its three branches, and what holds over any sequence of calls.
- `TrackerImpl` (`tracker.dfy`): the imperative tracker. It is a `Tracker` class
  with a mutable `context` field. It holds references to a `GlobalStore` (the two
  module-level arrays, which its methods push to, pop from and truncate), to
  the `AnalyticsApi` sink and to a `Console`. `Tracker.CaptureEvent` is proved to
  change the store and the sink exactly as `Step` says. It is also proved to
  keep the store invariant and never to hand the sink an `_element`.

Modelling choices:

- A context is a map from key to `Primitive` (a string, number or boolean). A
  key whose value is `undefined` is modelled as an absent key. None of the
  tracker's comparisons (`_element === 'gathered'`, `pluginId === 'root'`) can
  tell the two apart.
- The sink is the `AnalyticsApi` class. It records every event handed to it in
  a ghost log, and its `CaptureEvent` returns an arbitrary `threw` flag and
  counts the throws in a ghost `failures` counter. A throw is caught and
  becomes one warning on the `Console`, which is a ghost counter: the tracker's
  methods prove that warnings grow by exactly as much as `failures`. Nothing
  else changes.
- The merge of a pending navigation with the last render record follows the
  code's top-level object spread (`Tracker.ts:88-91`). A render record has only
  a `context` key, so its context replaces the navigation's context whole. It
  is not merged key by key: keys of the navigation's context that the render's
  context lacks are not kept. In practice every render record holds
  `extension: 'App'`, and it usually holds `pluginId` and `routeRef` too.
- When more than one navigation is pending, the flush emits only the last one
  and drops the rest, exactly as the code's `pop()` then `length = 0` does.
  `RunKeepsStoreInv` shows that at most one navigation is ever pending, so this
  case cannot arise from an empty store.

## Model

| member | source | states |
|---|---|---|
| `Analytics.DefaultContext` | packages/core-plugin-api/src/analytics/Tracker.ts:45-49 | the default context has exactly the keys `routeRef`, `pluginId` and `extension`, with values `unknown`, `root` and `App`, and no `_element` |
| `Analytics.Element` | packages/core-plugin-api/src/analytics/Tracker.ts:65 | the destructured `_element` is `undefined` exactly when the key is absent, otherwise its value |
| `Analytics.IsGatheredNavigation` | packages/core-plugin-api/src/analytics/Tracker.ts:104-108 | a call is deferred exactly when its action is `navigate`, `_element` is the string `gathered` and `pluginId` is the string `root` |
| `Analytics.Strip` | packages/core-plugin-api/src/analytics/Tracker.ts:64-65 | the stripped context has no `_element` key and keeps every other key with its value |
| `Analytics.RenderRecordOf` | packages/core-plugin-api/src/analytics/Tracker.ts:70-75 | a render record holds the stripped context with `extension` set to `App`: no `_element`, all other keys and values kept |
| `Analytics.EventOf` | packages/core-plugin-api/src/analytics/Tracker.ts:120-127 | the event built from a call carries a context without `_element` |
| `Analytics.LastOf` | packages/core-plugin-api/src/analytics/Tracker.ts:84-85 | `pop()` yields `undefined` exactly on an empty array, otherwise the last element |
| `Analytics.Merge` | packages/core-plugin-api/src/analytics/Tracker.ts:88-91 | the merged event keeps the navigation's action, subject, value and attributes; its context is the render's if there is one, else the navigation's |
| `Analytics.Flush` | packages/core-plugin-api/src/analytics/Tracker.ts:82-100 | with no navigation pending nothing changes and nothing is emitted; otherwise exactly one event is emitted and both buffers end empty |
| `Analytics.Step` | packages/core-plugin-api/src/analytics/Tracker.ts:56-132 | one call emits at most two events |
| `Analytics.Run` | packages/core-plugin-api/src/analytics/Tracker.ts:27-40 | successive calls against the shared module-level buffers emit at most two events per call; no calls leave the buffers as they were and emit nothing |
| `TrackerProperties.RenderMarkerOnlyRecords` | packages/core-plugin-api/src/analytics/Tracker.ts:67-77 | a render marker emits nothing, appends exactly one record (stripped context, `extension` = `App`) and leaves the navigations unchanged |
| `TrackerProperties.PendingNavigationFlushedFirst` | packages/core-plugin-api/src/analytics/Tracker.ts:82-100 | with a navigation pending, a non-marker call emits first the last navigation's action, subject, value and attributes under the last render's context (or the navigation's own); the render buffer ends empty and no old navigation is left |
| `TrackerProperties.GatheredNavigationDeferred` | packages/core-plugin-api/src/analytics/Tracker.ts:102-118 | a gathered root `navigate` is not emitted; afterwards it is the only pending navigation; the only emission is a flush of an earlier one |
| `TrackerProperties.OtherCallEmitsItselfLast` | packages/core-plugin-api/src/analytics/Tracker.ts:120-131 | any other non-marker call emits its own event under the stripped context, last, after at most one flushed navigation; no navigation is left pending |
| `TrackerProperties.StepKeepsStoreInv` | packages/core-plugin-api/src/analytics/Tracker.ts:64-118 | one call keeps at most one pending navigation and only stripped contexts in both buffers, and emits no `_element` |
| `TrackerProperties.RunKeepsStoreInv` | packages/core-plugin-api/src/analytics/Tracker.ts:27-40 | over any sequence of calls from any trackers sharing the buffers, at most one navigation is pending and no emitted context contains `_element` |
| `TrackerProperties.RunEmitsAtMostOnePerCall` | packages/core-plugin-api/src/analytics/Tracker.ts:82-131 | over any run, the events emitted plus the navigations left pending never exceed the calls made plus those pending at the start |
| `TrackerProperties.PlainCallsEmitInOrder` | packages/core-plugin-api/src/analytics/Tracker.ts:120-131 | with nothing pending, calls that are neither markers nor gathered navigations emit exactly one event each, in call order, and leave the buffers as they were |
| `TrackerProperties.FlushedNavigationNotReemitted` | packages/core-plugin-api/src/analytics/Tracker.ts:97-99 | after a plain call flushed a navigation, the next plain call emits only its own event, so the flushed navigation is not emitted again (with `Analytics.Flush`, which empties both buffers) |
| `TrackerProperties.RenderEnrichesPendingNavigation` | packages/core-plugin-api/src/analytics/Tracker.ts:67-99 | a gathered navigation, then a render marker, then a plain call emit the navigation under the marker's stripped context with `extension` = `App`, then the call's own event, and empty both buffers |
| `TrackerProperties.DefaultContextNeverGathers` | packages/core-plugin-api/src/analytics/Tracker.ts:45-49 | a tracker with the default context never defers a `navigate` |
| `TrackerProperties.HomeThenClick` | packages/core-plugin-api/src/analytics/Tracker.ts:56-132 | under a gathered root context, `navigate /home` emits nothing and is pending; a following click emits the navigation, then the click, both without `_element` |
| `TrackerImpl.AnalyticsApi.CaptureEvent` | packages/core-plugin-api/src/analytics/Tracker.ts:121-127 | the sink records each event it is handed, whether or not it throws, and counts one failure exactly when it throws |
| `TrackerImpl.Console.Warn` | packages/core-plugin-api/src/analytics/Tracker.ts:128-131 | a caught failure adds one warning |
| `TrackerImpl.GlobalStore.constructor` | packages/core-plugin-api/src/analytics/Tracker.ts:27-40 | both module-level buffers start empty, which satisfies the store invariant |
| `TrackerImpl.Tracker.constructor` | packages/core-plugin-api/src/analytics/Tracker.ts:43-50 | a tracker starts with the given context, by default `{routeRef: 'unknown', pluginId: 'root', extension: 'App'}` |
| `TrackerImpl.Tracker.SetContext` | packages/core-plugin-api/src/analytics/Tracker.ts:52-54 | replaces the context wholesale; the store, the sink and the console are unchanged |
| `TrackerImpl.Tracker.Emit` | packages/core-plugin-api/src/analytics/Tracker.ts:120-131 | hands exactly one event to the sink; it warns exactly once if the capture threw and not otherwise, and the throw does not propagate |
| `TrackerImpl.Tracker.FlushGathered` | packages/core-plugin-api/src/analytics/Tracker.ts:82-100 | the pops, the emission and the truncation leave the store and the sink as `Flush` says, whether or not the capture threw; one warning per throw |
| `TrackerImpl.Tracker.CaptureEvent` | packages/core-plugin-api/src/analytics/Tracker.ts:56-132 | the store and the sink change exactly as `Step` says, warnings grow by exactly the number of captures that threw, the store invariant is kept, and the sink is handed no `_element` |

## Left out

- packages/backend/src/index.ts is not part of this model: it is process bootstrap (config, logging, database, routers) with no invariants of its own.
- The internals of the analytics API: it is a foreign interface, modelled as a sink that logs what it is handed and may throw.
- The text of the `console.warn` message and the captured error: I/O, modelled as a warning count.
- `TrackerImpl.AnalyticsApi.CaptureEvent`: only a synchronous throw is modelled, because that is all the code's `try`/`catch` catches. A promise the sink rejects later is not modelled.
- A sink that calls back into a tracker while being handed an event (re-entrancy): it is foreign code the model cannot see. The model assumes calls are strictly sequential.
- The contents of event attributes and the numeric `value`: they are passed through untouched. `value` is a `real`, with no floating-point behaviour, because no arithmetic is done on it.
- Context keys whose value is `undefined` are modelled as absent keys (see above).
