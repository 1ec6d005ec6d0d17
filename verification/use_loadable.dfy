/**
 * `useLoadable` and `loadLoadable` (src/useImported.ts:10-14, 45-102).
 * One hook instance is a `LoadableHook`; React's scheduling is replaced by explicit
 * calls: the constructor is the `useState` initialiser of the first render, and
 * `LoadEffect`, `Retry` and `DeliverSettled` are the effect run, a call of the
 * returned `retry`, and the settling of the promises `loadLoadable` waits on.
 */
module UseLoadable {
  import opened Wrappers
  import opened Marks
  import opened Loadables

  /** `HookOptions`: each flag is either absent (`undefined`) or a boolean. */
  datatype HookOptions = HookOptions(imports: Option<bool>, track: Option<bool>)

  /** `options.import !== false`: an absent flag counts as true. */
  predicate Imports(o: HookOptions)
  {
    o.imports != Some(false)
  }

  /** `options.track !== false` */
  predicate Tracks(o: HookOptions)
  {
    o.track != Some(false)
  }

  /**
   * The marks one run of the gated block records: `(stream, mark)` when neither
   * `import` nor `track` is `false`, and nothing otherwise. Tracking is nested
   * inside the import check, so `track` alone never records a mark.
   */
  function GatedMarks(o: HookOptions, stream: Stream, mark: Mark): (r: seq<MarkRecord>)
    ensures |r| <= 1
    ensures r != [] <==> o.imports != Some(false) && o.track != Some(false)
    ensures forall m | m in r :: m == MarkRecord(stream, mark)
  {
    if Imports(o) && Tracks(o) then [MarkRecord(stream, mark)] else []
  }

  /** `track: false` never stops loading, and `import: false` stops marks and loading alike. */
  lemma TrackNeverGatesLoading(o: HookOptions, track: Option<bool>, stream: Stream, mark: Mark)
    ensures Imports(o.(track := track)) == Imports(o)
    ensures !Imports(o) ==> GatedMarks(o.(track := track), stream, mark) == []
  {
  }

  /** The state one `useLoadable` call keeps across renders. */
  class LoadableHook<P, E> {
    const loadable: Loadable?<P, E>
    const options: HookOptions
    const stream: Stream
    const marks: MarkLog
    /** Calls of `forceUpdate` so far. */
    var updates: nat
    /** Settle callbacks `loadLoadable` has registered that have not run yet. */
    var waiting: nat

    /** The source dereferences the loadable whenever importing is on; without a loadable nothing is awaited. */
    ghost predicate Valid()
      reads this
    {
      (Imports(options) ==> loadable != null) && (loadable == null ==> waiting == 0)
    }

    /** The first render: the `useState` initialiser records the mark and starts loading, without waiting. */
    constructor (loadable: Loadable?<P, E>, options: HookOptions, stream: Stream, marks: MarkLog)
      requires Imports(options) ==> loadable != null
      modifies loadable, marks
      ensures Valid()
      ensures this.loadable == loadable && this.options == options
      ensures this.stream == stream && this.marks == marks
      ensures updates == 0 && waiting == 0
      ensures marks.records == old(marks.records) +
        if loadable == null then [] else GatedMarks(options, stream, loadable.mark)
      ensures Imports(options) ==> loadable.state == old(loadable.state).LoadIfNeeded()
      ensures !Imports(options) && loadable != null ==> loadable.state == old(loadable.state)
    {
      this.loadable := loadable;
      this.options := options;
      this.stream := stream;
      this.marks := marks;
      updates, waiting := 0, 0;
      new;
      if Imports(options) {
        if Tracks(options) {
          marks.Record(stream, loadable.mark);
        }
        loadable.LoadIfNeeded();
      }
    }

    /** `loadLoadable(loadable, forceUpdate)`: start loading if needed and wait for the promise to settle. */
    method LoadAndNotify()
      requires Valid() && loadable != null
      modifies this, loadable
      ensures Valid()
      ensures loadable.state == old(loadable.state).LoadIfNeeded()
      ensures waiting == old(waiting) + 1 && updates == old(updates)
    {
      loadable.LoadIfNeeded();
      waiting := waiting + 1;
    }

    /** The effect keyed on `[loadable, options.import]`: the same gating as the first render, then `loadLoadable`. */
    method LoadEffect()
      requires Valid()
      modifies this, loadable, marks
      ensures Valid() && updates == old(updates)
      ensures marks.records == old(marks.records) +
        if loadable == null then [] else GatedMarks(options, stream, loadable.mark)
      ensures Imports(options) ==>
        loadable.state == old(loadable.state).LoadIfNeeded() && waiting == old(waiting) + 1
      ensures !Imports(options) ==>
        waiting == old(waiting) && (loadable != null ==> loadable.state == old(loadable.state))
    {
      if Imports(options) {
        if Tracks(options) {
          marks.Record(stream, loadable.mark);
        }
        LoadAndNotify();
      }
    }

    /**
     * The promise `loadLoadable` waits on settles: `then(upd, upd)` runs the same
     * update on fulfilment and on rejection, so every waiting callback forces one
     * update once the loadable is done or failed, and none runs before.
     */
    method DeliverSettled()
      requires Valid()
      modifies this
      ensures Valid()
      ensures loadable != null && loadable.state.Settled() ==>
        updates == old(updates) + old(waiting) && waiting == 0
      ensures !(loadable != null && loadable.state.Settled()) ==>
        updates == old(updates) && waiting == old(waiting)
    {
      if loadable != null && loadable.state.Settled() {
        updates := updates + waiting;
        waiting := 0;
      }
    }

    /**
     * `retry()`: nothing without a loadable; otherwise reset it, force an update and
     * load again. No mark is recorded and the `import` option is not consulted.
     */
    method Retry()
      requires Valid()
      modifies this, loadable
      ensures Valid()
      ensures loadable == null ==> updates == old(updates) && waiting == old(waiting)
      ensures loadable != null ==>
        && loadable.state == old(loadable.state).Reset().LoadIfNeeded()
        && updates == old(updates) + 1 && waiting == old(waiting) + 1
    {
      if loadable == null {
        return;
      }
      loadable.Reset();
      updates := updates + 1;
      LoadAndNotify();
    }
  }
}
