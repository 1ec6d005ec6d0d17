/**
 * `useImported` (src/useImported.ts:104-143): the hook that wraps one loadable,
 * arms the hot-reload guard after its first effect run, and projects the
 * loadable's state into exactly one of `{error}`, `{imported}` or `{loading}`.
 */
module UseImported {
  import opened Wrappers
  import opened Marks
  import opened Loadables
  import opened HotReload
  import opened UseLoadable

  /**
   * `ImportedShape`: the three optional fields, the loadable and the `retry`
   * callback (here the hook whose `Retry` it is).
   */
  datatype Shape<K, E, L, R> = Shape(imported: Option<K>, error: Option<E>, loading: Option<bool>, loadable: L, retry: R)
  {
    /** Exactly one of `imported`, `error` and `loading` is present. */
    predicate ExactlyOne()
    {
      (if imported.Some? then 1 else 0) + (if error.Some? then 1 else 0) + (if loading.Some? then 1 else 0) == 1
    }
  }

  /**
   * The result of `useImported`: an error wins even over a done loadable; then a
   * done loadable yields the picker applied to its payload slot (which is passed as
   * it is, `undefined` included); anything else yields `loading` set to
   * `isLoading()`, which is false for an unloaded loadable. Every shape carries the
   * same loadable and retry.
   */
  function Project<P, E, K, L, R>(s: LoadState<P, E>, pick: Option<P> -> K, loadable: L, retry: R): (r: Shape<K, E, L, R>)
    ensures r.ExactlyOne()
    ensures r.loadable == loadable && r.retry == retry
    ensures r.error.Some? <==> s.error.Some?
    ensures s.error.Some? ==> r.error == s.error
    ensures r.imported.Some? <==> s.error.None? && s.IsDone()
    ensures r.imported.Some? ==> r.imported.value == pick(s.payload)
    ensures r.loading.Some? <==> s.error.None? && !s.IsDone()
    ensures r.loading.Some? ==> r.loading.value == s.IsLoading()
  {
    if s.error.Some? then
      Shape(None, s.error, None, loadable, retry)
    else if s.IsDone() then
      Shape(Some(pick(s.payload)), None, None, loadable, retry)
    else
      Shape(None, None, Some(s.IsLoading()), loadable, retry)
  }

  /**
   * For a loadable that keeps its lifecycle invariant the shape follows the status:
   * failed gives the error, done gives the picked payload, loading gives
   * `loading: true` and unloaded gives `loading: false`.
   */
  lemma ShapeFollowsStatus<P, E, K, L, R>(s: LoadState<P, E>, pick: Option<P> -> K, loadable: L, retry: R)
    requires s.Valid()
    ensures var r := Project(s, pick, loadable, retry);
      && (s.status.Error? ==> r.error == s.error && r.error.Some?)
      && (s.status.Done? ==> r.imported == Some(pick(s.payload)) && s.payload.Some?)
      && (s.status.Loading? ==> r.loading == Some(true))
      && (s.status.Unloaded? ==> r.loading == Some(false))
  {
  }

  /** After `retry()` the hook shows `{loading: true}`, whatever the loadable held before. */
  lemma RetryShowsLoading<P, E, K, L, R>(s: LoadState<P, E>, pick: Option<P> -> K, loadable: L, retry: R)
    ensures Project(s.Reset().LoadIfNeeded(), pick, loadable, retry).loading == Some(true)
  {
  }

  /** The state one `useImported` call keeps across renders, around its `useLoadable`. */
  class ImportedHook<P, E> {
    const loadable: Loadable<P, E>
    const base: LoadableHook<P, E>
    /** `postEffectRef.current` */
    var postEffect: bool
    /** Reload callbacks `then(cb)` holds for this hook that have not run yet. */
    var reloadWaiting: nat

    ghost predicate Valid()
      reads this, base, loadable
    {
      base.loadable == loadable && base.Valid() && loadable.Valid()
    }

    /** The first render: keep the loadable, leave the flag unset, and run `useLoadable`'s first render. */
    constructor (loadable: Loadable<P, E>, options: HookOptions, stream: Stream, marks: MarkLog)
      requires loadable.Valid()
      modifies loadable, marks
      ensures Valid() && fresh(base)
      ensures this.loadable == loadable && base.options == options && base.stream == stream && base.marks == marks
      ensures !postEffect && reloadWaiting == 0 && base.updates == 0 && base.waiting == 0
      ensures marks.records == old(marks.records) + GatedMarks(options, stream, loadable.mark)
      ensures loadable.state == if Imports(options) then old(loadable.state).LoadIfNeeded() else old(loadable.state)
    {
      this.loadable := loadable;
      var b := new LoadableHook(loadable, options, stream, marks);
      base := b;
      postEffect, reloadWaiting := false, 0;
    }

    /**
     * The effect keyed on `['hot']`: the first run only sets the flag; every later
     * run (after a hot update) schedules a guarded reload with this hook as callback.
     */
    method HotEffect(guard: HotReloadGuard<Loadable<P, E>, ImportedHook<P, E>>)
      requires guard.State().Valid()
      modifies this, guard
      ensures guard.State().Valid()
      ensures postEffect && reloadWaiting == old(reloadWaiting)
      ensures guard.State() ==
        if old(postEffect) then old(guard.State()).Schedule(loadable, this) else old(guard.State())
    {
      if postEffect {
        guard.Schedule(loadable, this);
      }
      postEffect := true;
    }

    /**
     * The reload promise settles. `then(cb)` has no rejection handler, so the
     * waiting callbacks run only when the reload fulfilled, and each forces an
     * update only when `settings.updateOnReload` is on.
     */
    method ReloadSettled(updateOnReload: bool)
      requires Valid()
      modifies this, base
      ensures Valid() && base.waiting == old(base.waiting)
      ensures postEffect == old(postEffect)
      ensures loadable.state.IsDone() ==>
        base.updates == old(base.updates) + (if updateOnReload then old(reloadWaiting) else 0)
      ensures !loadable.state.IsDone() ==> base.updates == old(base.updates)
      ensures reloadWaiting == if loadable.state.Settled() then 0 else old(reloadWaiting)
    {
      if loadable.state.Settled() {
        if loadable.state.IsDone() && updateOnReload {
          base.updates := base.updates + reloadWaiting;
        }
        reloadWaiting := 0;
      }
    }

    /** What the hook returns on a render. */
    function Result<K>(pick: Option<P> -> K): (r: Shape<K, E, Loadable<P, E>, LoadableHook<P, E>>)
      reads loadable
      ensures r.ExactlyOne()
      ensures r.loadable == loadable && r.retry == base
    {
      Project(loadable.state, pick, loadable, base)
    }
  }

  /**
   * The timeout of pending timer `i`: when it still holds the current tracker the
   * loadable reloads and the hook that scheduled it waits for the reload;
   * otherwise nothing but the guard's pending list changes.
   */
  method FireTimer<P, E>(guard: HotReloadGuard<Loadable<P, E>, ImportedHook<P, E>>, i: nat)
    returns (ran: Option<Timer<Loadable<P, E>, ImportedHook<P, E>>>)
    requires guard.State().Valid() && i < |guard.pending|
    modifies guard, guard.pending[i].key, guard.pending[i].cb
    ensures guard.State().Valid()
    ensures (guard.State(), ran) == old(guard.State()).Fire(i)
    ensures ran.Some? ==>
      && ran.value.key.state == old(ran.value.key.state).Reload()
      && ran.value.cb.reloadWaiting == old(ran.value.cb.reloadWaiting) + 1
      && ran.value.cb.postEffect == old(ran.value.cb.postEffect)
    ensures ran.None? ==> unchanged(old(guard.pending[i]).key, old(guard.pending[i]).cb)
  {
    ran := guard.Fire(i);
    if ran.Some? {
      var t := ran.value;
      t.key.Reload();
      t.cb.reloadWaiting := t.cb.reloadWaiting + 1;
    }
  }

  /** A module whose default export is the component. */
  datatype Module = Module(defaultExport: string)

  function PickDefault(m: Option<Module>): string
  {
    if m.Some? then m.value.defaultExport else ""
  }

  /** A factory that fulfils with `{default: "X"}`: first `{loading: true}`, then `{imported: "X"}`. */
  method ScenarioResolves() returns (before: Option<bool>, after: Option<string>)
    ensures before == Some(true) && after == Some("X")
  {
    var marks := new MarkLog();
    var l := new Loadable<Module, string>("unit");
    var h := new ImportedHook(l, HookOptions(None, None), 0, marks);
    h.base.LoadEffect();
    before := h.Result(PickDefault).loading;
    l.Resolve(Module("X"));
    h.base.DeliverSettled();
    assert h.base.updates == 1;
    after := h.Result(PickDefault).imported;
  }

  /** A factory that rejects with "boom": `{error: "boom"}`, and `retry()` goes back to `{loading: true}`. */
  method ScenarioRetryAfterError() returns (failed: Option<string>, retried: Option<bool>)
    ensures failed == Some("boom") && retried == Some(true)
  {
    var marks := new MarkLog();
    var l := new Loadable<Module, string>("unit");
    var h := new ImportedHook(l, HookOptions(None, None), 0, marks);
    h.base.LoadEffect();
    l.Reject("boom");
    h.base.DeliverSettled();
    failed := h.Result(PickDefault).error;
    h.base.Retry();
    retried := h.Result(PickDefault).loading;
  }

  /**
   * Two hot updates before either timer fires: the first timer finds a newer
   * tracker and does nothing, the second reloads the loadable.
   */
  method ScenarioHotUpdates() returns (first: bool, second: bool, attempts: nat)
    ensures !first && second && attempts == 2
  {
    var marks := new MarkLog();
    var guard := new HotReloadGuard<Loadable<Module, string>, ImportedHook<Module, string>>();
    var l := new Loadable<Module, string>("unit");
    var h := new ImportedHook(l, HookOptions(None, None), 0, marks);
    assert l.state.attempts == 1;
    h.HotEffect(guard);
    h.HotEffect(guard);
    h.HotEffect(guard);
    assert guard.State() == Guard(map[l := 1], 2, [Timer(l, 0, h), Timer(l, 1, h)]);
    var r1 := FireTimer(guard, 0);
    first := r1.Some?;
    assert !first && l.state.attempts == 1;
    assert guard.State() == Guard(map[l := 1], 2, [Timer(l, 1, h)]) by {
      assert [Timer(l, 0, h), Timer(l, 1, h)][1..] == [Timer(l, 1, h)];
    }
    var r2 := FireTimer(guard, 0);
    second := r2.Some?;
    attempts := l.state.attempts;
  }
}
