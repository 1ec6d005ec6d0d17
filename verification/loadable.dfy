/**
 * The Loadable the hooks drive, specified only as far as the hooks rely on it:
 * a status, the payload and error slots, and a count of factory invocations.
 * How the real implementation deduplicates factories or stores payloads is not
 * part of this model.
 */
module Loadables {
  import opened Wrappers
  import opened Marks

  datatype Status = Unloaded | Loading | Done | Error

  /**
   * The observable state of a loadable. The three slots are independent here, as
   * they are to the hooks that read them (`error`, `done`, `payload`,
   * `isLoading()`); `Valid` is the lifecycle invariant the loadable itself keeps.
   * `attempts` counts invocations of the factory.
   */
  datatype LoadState<P, E> = LoadState(status: Status, payload: Option<P>, error: Option<E>, attempts: nat)
  {
    /** A payload only when done, an error only when failed. */
    predicate Valid()
    {
      (payload.Some? <==> status.Done?) && (error.Some? <==> status.Error?)
    }

    /** `loadable.done` */
    predicate IsDone() { status.Done? }

    /** `loadable.isLoading()` */
    predicate IsLoading() { status == Loading }

    /** The promise of the current attempt has settled, either way. */
    predicate Settled() { status.Done? || status.Error? }

    /**
     * `loadIfNeeded()`: starts the factory only from Unloaded; a loadable that is
     * loading, done or failed is left exactly as it is.
     */
    function LoadIfNeeded(): (r: LoadState<P, E>)
      ensures r.status != Unloaded
      ensures status == Unloaded ==> r.IsLoading() && r.attempts == attempts + 1
      ensures status != Unloaded ==> r == this
      ensures Valid() ==> r.Valid()
    {
      if status == Unloaded then this.(status := Loading, attempts := attempts + 1) else this
    }

    /** `reset()`: back to Unloaded without invoking the factory. */
    function Reset(): (r: LoadState<P, E>)
      ensures r.status == Unloaded && r.Valid()
      ensures r.attempts == attempts
    {
      LoadState(Unloaded, None, None, attempts)
    }

    /** `reload()`: invokes the factory again whatever the current status. */
    function Reload(): (r: LoadState<P, E>)
      ensures r.IsLoading() && r.Valid()
      ensures r.attempts == attempts + 1
    {
      LoadState(Loading, None, None, attempts + 1)
    }

    /** The factory's promise fulfils with `p`. */
    function Resolve(p: P): (r: LoadState<P, E>)
      requires IsLoading()
      ensures r.IsDone() && r.payload == Some(p) && r.Valid()
      ensures r.attempts == attempts
    {
      LoadState(Status.Done, Some(p), None, attempts)
    }

    /** The factory's promise rejects with `e`. */
    function Reject(e: E): (r: LoadState<P, E>)
      requires IsLoading()
      ensures r.status.Error? && r.error == Some(e) && r.Valid()
      ensures r.attempts == attempts
    {
      LoadState(Status.Error, None, Some(e), attempts)
    }
  }

  function Fresh<P, E>(): (s: LoadState<P, E>)
    ensures s.status == Unloaded && s.Valid() && s.attempts == 0
  {
    LoadState(Unloaded, None, None, 0)
  }

  /** However many times `loadIfNeeded()` is called, the factory runs at most once. */
  lemma LoadIfNeededIdempotent<P, E>(s: LoadState<P, E>)
    ensures s.LoadIfNeeded().LoadIfNeeded() == s.LoadIfNeeded()
    ensures s.LoadIfNeeded().attempts <= s.attempts + 1
  {
  }

  /** `reset()` then `loadIfNeeded()` always starts a fresh attempt, whatever came before. */
  lemma ResetThenLoadRestarts<P, E>(s: LoadState<P, E>)
    ensures var r := s.Reset().LoadIfNeeded();
      r.IsLoading() && r.Valid() && r.attempts == s.attempts + 1
  {
  }

  /** A loadable object; the hooks share it by reference. */
  class Loadable<P, E> {
    const mark: Mark
    var state: LoadState<P, E>

    /** The lifecycle invariant of the object's state. */
    ghost predicate Valid()
      reads this
    {
      state.Valid()
    }

    constructor (mark: Mark)
      ensures Valid()
      ensures this.mark == mark && state == Fresh()
    {
      this.mark := mark;
      state := Fresh();
    }

    method LoadIfNeeded()
      modifies this
      ensures old(Valid()) ==> Valid()
      ensures state == old(state).LoadIfNeeded()
    {
      state := state.LoadIfNeeded();
    }

    method Reset()
      modifies this
      ensures Valid()
      ensures state == old(state).Reset()
    {
      state := state.Reset();
    }

    method Reload()
      modifies this
      ensures Valid()
      ensures state == old(state).Reload()
    {
      state := state.Reload();
    }

    method Resolve(p: P)
      requires state.IsLoading()
      modifies this
      ensures Valid()
      ensures state == old(state).Resolve(p)
    {
      state := state.Resolve(p);
    }

    method Reject(e: E)
      requires state.IsLoading()
      modifies this
      ensures Valid()
      ensures state == old(state).Reject(e)
    {
      state := state.Reject(e);
    }
  }
}
