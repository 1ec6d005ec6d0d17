# react-imported-component: the `useImported` hook layer in Dafny

This project models the integration layer of react-imported-component that lives in
`src/useImported.ts`. That layer drives a code-split unit, a *Loadable*, from a render
cycle. The model covers four pieces:

- `loadLoadable` starts loading and forces a re-render once the load settles.
- `useLoadable` gates mark recording and loading on the `import` and `track`
  options, and provides `retry`.
- `useImported` projects the loadable's state into `{error}`, `{imported}` or
  `{loading}`. After its first effect run it arms the hot-reload guard.
- `executeLoadableEventually` and its `WEAK_MAP` side table form the hot-reload guard.
  The last schedule for a loadable wins.

React's scheduling is replaced by explicit steps. A hook instance is an object. Its
constructor is the first render's `useState` initialiser, and each effect run is a
method call. Promise settlement and timer expiry are also separate method calls.

Files and modules:

- `wrappers.dfy` (`Wrappers`): `Option`.
- `marks.dfy` (`Marks`): the mark store, kept as a log of `useMark(stream, mark)` calls.
- `loadable.dfy` (`Loadables`): the abstract Loadable. It has a status
  (`Unloaded | Loading | Done | Error`), the payload and error slots, and a count of
  factory invocations. `LoadState` is its value. The `Loadable` class is the shared
  object the hooks mutate.
- `hot_reload.dfy` (`HotReload`): the guard. `Guard` is its state as a value, with
  `Schedule`, `Fire` and a trace semantics `Run`. `HotReloadGuard` is the mutable
  side table together with the list of pending timers.
- `use_loadable.dfy` (`UseLoadable`): option gating and the `LoadableHook` class.
- `use_imported.dfy` (`UseImported`): the result projection, the `ImportedHook`
  class, timer firing, and three end-to-end scenarios.

The hot-reload callback is attached with `loadable.reload().then(cb)`
(src/useImported.ts:25), with no rejection handler. So `cb` runs only when the
reload fulfils, and `UseImported.ImportedHook.ReloadSettled` states this.

## Model

| member | source | states |
|---|---|---|
| `Loadables.LoadState.LoadIfNeeded` | src/useImported.ts:53 | `loadIfNeeded()` starts the factory (status Loading, one more attempt) only from Unloaded. A loading, done or failed loadable is returned unchanged. The result is never Unloaded, and the lifecycle invariant is kept. |
| `Loadables.LoadState.Reset` | src/useImported.ts:81 | `reset()` returns to Unloaded with empty slots and does not invoke the factory. |
| `Loadables.LoadState.Reload` | src/useImported.ts:25 | `reload()` invokes the factory again whatever the status. The result is Loading with one more attempt. |
| `Loadables.LoadState.Resolve` | src/useImported.ts:13 | The load promise fulfils: the loadable becomes done and holds the payload. |
| `Loadables.LoadState.Reject` | src/useImported.ts:13 | The load promise rejects: the loadable becomes failed and holds the error. |
| `Loadables.LoadIfNeededIdempotent` | src/useImported.ts:53-64 | The mount initialiser and the effect both call `loadIfNeeded()`. Calling it twice equals calling it once, so the factory runs at most once. |
| `Loadables.ResetThenLoadRestarts` | src/useImported.ts:81-83 | `reset()` followed by `loadIfNeeded()` always starts a fresh attempt, even after a success. |
| `Loadables.Loadable.constructor` | src/useImported.ts:109 | A new loadable object is unloaded, carries its mark and satisfies the lifecycle invariant (`Valid`). |
| `Loadables.Loadable.LoadIfNeeded` | src/useImported.ts:53 | The object's state becomes `LoadIfNeeded` of its old state, and the lifecycle invariant is kept. |
| `Loadables.Loadable.Reset` | src/useImported.ts:81 | The object's state becomes `Reset` of its old state, which satisfies the lifecycle invariant. |
| `Loadables.Loadable.Reload` | src/useImported.ts:25 | The object's state becomes `Reload` of its old state, which satisfies the lifecycle invariant. |
| `Loadables.Loadable.Resolve` | src/useImported.ts:13 | A loading object's state becomes `Resolve(p)` of its old state, which satisfies the lifecycle invariant. |
| `Loadables.Loadable.Reject` | src/useImported.ts:13 | A loading object's state becomes `Reject(e)` of its old state, which satisfies the lifecycle invariant. |
| `Marks.MarkLog.constructor` | src/useImported.ts:51 | The mark log starts empty. |
| `Marks.MarkLog.Record` | src/useImported.ts:51 | `useMark(stream, mark)` appends exactly that record to the log. |
| `HotReload.Empty` | src/useImported.ts:16 | `WEAK_MAP` starts with no entries and no armed timers. |
| `HotReload.Guard.Schedule` | src/useImported.ts:18-23 | A schedule stores a fresh tracker for the key. Every other key's entry is unchanged. The new timer is pending and current. Earlier timers stay pending. Validity is kept. |
| `HotReload.Guard.Fire` | src/useImported.ts:23-27 | A timeout removes that one timer and leaves the table untouched. It reloads if and only if the table still holds the timer's own tracker. |
| `HotReload.Guard.Step` | src/useImported.ts:18-27 | One event of either kind keeps validity. Any timer that reloads was pending and current. |
| `HotReload.ScheduleSupersedes` | src/useImported.ts:20-24 | After a new schedule for a loadable, no earlier timer for it holds the current tracker. |
| `HotReload.ScheduleIsolated` | src/useImported.ts:16-24 | Scheduling for one loadable leaves another loadable's table entry unchanged. It also leaves unchanged whether that loadable's timers are current and what they do when they fire. |
| `HotReload.StaleNeverRuns` | src/useImported.ts:24 | Under any sequence of later schedules and timeouts, a superseded timer stays superseded and never reloads. |
| `HotReload.CurrentRunsAlone` | src/useImported.ts:20-25 | While nothing new is scheduled for its loadable, a current timer stays current. Its reload is the only one for that loadable that can run. |
| `HotReload.LastScheduleWins` | src/useImported.ts:18-27 | Take two schedules for the same loadable before either fires. Whatever other loadables do, the first never reloads, the second stays current, and every reload that runs for that loadable is the second's. |
| `HotReload.HotReloadGuard.constructor` | src/useImported.ts:16 | The side table starts as `Empty`, which is valid. |
| `HotReload.HotReloadGuard.Schedule` | src/useImported.ts:18-23 | The synchronous part of `executeLoadableEventually`: the new state is `Guard.Schedule` of the old, and validity is kept. |
| `HotReload.HotReloadGuard.Fire` | src/useImported.ts:23-27 | The timeout callback: the new state and the timer to reload are `Guard.Fire` of the old state, and validity is kept. |
| `UseLoadable.GatedMarks` | src/useImported.ts:49-54 | The gated block records one mark, `(stream, loadable.mark)`, if and only if neither `import` nor `track` is `false`. Otherwise it records none. |
| `UseLoadable.TrackNeverGatesLoading` | src/useImported.ts:49-54 | The `track` flag never affects whether loading starts. With `import: false` no mark is recorded, whatever `track` is. |
| `UseLoadable.LoadableHook.constructor` | src/useImported.ts:47-57 | First render. Marks are recorded as `GatedMarks` says, and loading starts if and only if `import` is not `false`. No callback waits and no update is forced. |
| `UseLoadable.LoadableHook.LoadAndNotify` | src/useImported.ts:10-14 | `loadLoadable`: calls `loadIfNeeded()` and registers one more settle callback. |
| `UseLoadable.LoadableHook.LoadEffect` | src/useImported.ts:59-66 | Effect run with the same gating as the first render. When importing, it runs `loadLoadable`. Otherwise the loadable and the waiting callbacks are unchanged. |
| `UseLoadable.LoadableHook.DeliverSettled` | src/useImported.ts:11-13 | The same `upd` is passed for fulfilment and rejection. Once the loadable is done or failed, every waiting callback forces one update. Before that, none runs. |
| `UseLoadable.LoadableHook.Retry` | src/useImported.ts:77-84 | With no loadable it does nothing. Otherwise the state becomes `reset()` then `loadIfNeeded()` of the old state, one update is forced, and one settle callback is registered. |
| `UseImported.Project` | src/useImported.ts:122-142 | Exactly one of error, imported and loading is set. The error shape is returned if and only if there is an error, even when done. The imported shape, the picker applied to the payload slot, is returned if and only if there is no error and the loadable is done. Otherwise `loading` equals `isLoading()`. Every shape carries the same loadable and retry. |
| `UseImported.ShapeFollowsStatus` | src/useImported.ts:122-142 | For a loadable that keeps its invariant: failed gives the error, done gives the picked payload, loading gives `loading: true`, and unloaded gives `loading: false`. |
| `UseImported.RetryShowsLoading` | src/useImported.ts:77-84 | Whatever the loadable held before, after `retry()` the hook returns `{loading: true}`. |
| `UseImported.ImportedHook.constructor` | src/useImported.ts:109-111 | First render. The hook keeps the loadable, leaves `postEffectRef` unset, and runs `useLoadable`'s first render. Its invariant includes the loadable's lifecycle invariant, so `ShapeFollowsStatus` applies to every `Result`. |
| `UseImported.ImportedHook.HotEffect` | src/useImported.ts:114-120 | The first run only sets the flag. Every later run schedules a guarded reload with this hook as callback. |
| `UseImported.ImportedHook.ReloadSettled` | src/useImported.ts:25 | The reload callbacks run only if the reload fulfilled. Each forces an update only when `updateOnReload` is on. The `postEffectRef` flag keeps its value. |
| `UseImported.ImportedHook.Result` | src/useImported.ts:122-142 | The returned shape has exactly one outcome field and carries this hook's loadable and retry. |
| `UseImported.FireTimer` | src/useImported.ts:23-27 | A timer whose tracker is current reloads its loadable, and its hook waits for the reload. A stale timer changes nothing but the pending list. The guard stays valid. |
| `UseImported.ScenarioResolves` | src/useImported.ts:130-139 | With a factory that fulfils with `{default: "X"}`, the hook first returns `{loading: true}` and then `{imported: "X"}`. |
| `UseImported.ScenarioRetryAfterError` | src/useImported.ts:77-84 | With a factory that rejects with `"boom"`, the hook returns `{error: "boom"}`. After `retry()` it returns `{loading: true}`. |
| `UseImported.ScenarioHotUpdates` | src/useImported.ts:18-27 | Two hot updates happen before any timer fires. The first timer does nothing, the second reloads, and the factory has run twice in all. |

## Left out

- React itself is not modelled: `useState`, `useEffect` dependency arrays, `useCallback` memoisation and `useContext`. Each first render and each effect run is an explicit method call. The stream from the context is a constructor parameter.
- A hook instance keeps the same loadable and options for its lifetime. When `loadable` or `options.import` changes, React re-runs the load effect. In the model this is simply another call of `LoadEffect`.
- `useLoadable` also returns `update`, which is `forceUpdate`. It appears only as the `updates` counter.
- `useLazy` (src/useImported.ts:145-175) is not modelled. Its settle-once behaviour comes from JavaScript promise semantics.
- The 16 ms `setTimeout` delay and promise asynchrony are not modelled. Timers are a pending list and fire in any order the environment chooses; first-in-first-out order is one such order.
- `WeakMap` garbage collection is not modelled. The side table is a plain map keyed by loadable identity.
- The internals of `./loadable` (factory deduplication, `getLoadable`, `isItReady`) and of `./marks` (sets per stream, the default stream) are not part of this model. The Loadable is specified only by the status changes the hooks rely on. `useImported` takes an already built loadable instead of an importer.
- `es6import` from `./utils` is not part of this model. The scenarios use their own picker for a module's default export.
- The `console.error` diagnostics and their environment checks (`isBackend`, `process.env.NODE_ENV`) are left out (src/useImported.ts:68-73, 86-95). They only log.
- `src/context.tsx` (the stream provider and its `takeUID` check) is left out because it is UI plumbing.
- JavaScript truthiness of `loadable.error` is modelled as presence of the error slot. A rejection with a falsy reason cannot be expressed.
- `UseLoadable.LoadableHook.DeliverSettled`: settle callbacks registered on earlier attempts' promises are pooled with the current ones. They all run when the loadable is next settled, not when their own promise settles.
- `UseImported.ImportedHook.ReloadSettled`: reload callbacks are pooled in the same way. A rejected reload drops them, matching the absent rejection handler.
- `UseLoadable.LoadableHook.constructor`: it requires a loadable whenever `import` is not `false`, because the source dereferences it there and would throw.
- `UseImported.ImportedHook.constructor` and the guard's methods require the loadable's and the guard's invariants. Every `Loadable` and every `HotReloadGuard` establishes these invariants when built and keeps them in every method, so no reachable state is excluded.
