/**
 * The hot-reload guard `executeLoadableEventually` and its side table `WEAK_MAP`
 * (src/useImported.ts:16-28). Each call stores a fresh tracker for the loadable,
 * overwriting the previous one, and arms a timer; when the timer fires it reloads
 * only if the table still holds its own tracker. Timers are reified as a list of
 * pending entries and firing is an explicit step, so no time is modelled.
 */
module HotReload {
  import opened Wrappers

  /** A fresh tracker object (`const tracker = {}`), told apart by a counter. */
  type Token = nat

  /** An armed timer: the loadable it is for, its tracker and the callback handed to `then`. */
  datatype Timer<K, C> = Timer(key: K, token: Token, cb: C)

  /** One step of the environment: a call to the guard, or the timeout of the pending timer at `index`. */
  datatype Event<K, C> = ScheduleEvent(key: K, cb: C) | TimeoutEvent(index: nat)

  /**
   * The guard's whole state: the side table, the next fresh tracker and the
   * timers that have not fired yet.
   */
  datatype Guard<K, C(==)> = Guard(table: map<K, Token>, next: Token, pending: seq<Timer<K, C>>)
  {
    /** Every tracker in the table or in a pending timer has been handed out already. */
    predicate Valid()
    {
      && (forall k | k in table :: table[k] < next)
      && (forall t | t in pending :: t.token < next)
    }

    /** `WEAK_MAP.get(loadable) === tracker` for this timer. */
    predicate Current(t: Timer<K, C>)
    {
      t.key in table && table[t.key] == t.token
    }

    /** The timer's tracker was created before this state. */
    predicate Issued(t: Timer<K, C>)
    {
      t.token < next
    }

    /** No pending timer other than `t` carries `t`'s tracker. */
    predicate SoleHolder(t: Timer<K, C>)
    {
      forall u | u in pending && u.token == t.token :: u == t
    }

    /** `executeLoadableEventually(key, cb)`: store a fresh tracker, arm a timer holding it. */
    function Schedule(key: K, cb: C): (g: Guard<K, C>)
      ensures g.table.Keys == table.Keys + {key}
      ensures forall k | k in table && k != key :: g.table[k] == table[k]
      ensures g.Current(Timer(key, next, cb)) && Timer(key, next, cb) in g.pending
      ensures forall t | t in pending :: t in g.pending
      ensures g.next > next
      ensures Valid() ==> g.Valid() && g.SoleHolder(Timer(key, next, cb))
    {
      Guard(table[key := next], next + 1, pending + [Timer(key, next, cb)])
    }

    /**
     * The timeout of pending timer `i`: it leaves the pending list, and it reloads
     * (the second component names it) exactly when the table still holds its tracker.
     * The table itself is never touched by a timeout.
     */
    function Fire(i: nat): (r: (Guard<K, C>, Option<Timer<K, C>>))
      requires i < |pending|
      ensures r.0.table == table && r.0.next == next
      ensures r.1.Some? <==> Current(pending[i])
      ensures r.1.Some? ==> r.1.value == pending[i]
      ensures multiset(r.0.pending) + multiset{pending[i]} == multiset(pending)
      ensures forall t | t in r.0.pending :: t in pending
      ensures Valid() ==> r.0.Valid()
    {
      assert pending == pending[..i] + [pending[i]] + pending[i + 1..];
      (this.(pending := pending[..i] + pending[i + 1..]), if Current(pending[i]) then Some(pending[i]) else None)
    }

    /** One event; a timeout for an index with no pending timer changes nothing. */
    function Step(e: Event<K, C>): (r: (Guard<K, C>, Option<Timer<K, C>>))
      ensures r.0.next >= next
      ensures Valid() ==> r.0.Valid()
      ensures r.1.Some? ==> r.1.value in pending && Current(r.1.value)
    {
      match e
      case ScheduleEvent(key, cb) => (Schedule(key, cb), None)
      case TimeoutEvent(i) => if i < |pending| then Fire(i) else (this, None)
    }
  }

  /** The guard's state before any call. */
  function Empty<K, C(==)>(): (g: Guard<K, C>)
    ensures g.Valid() && g.pending == [] && g.table == map[]
  {
    Guard(map[], 0, [])
  }

  /** Runs a sequence of events; the second component lists the timers whose reload ran, in order. */
  function Run<K, C(==)>(g: Guard<K, C>, events: seq<Event<K, C>>): (r: (Guard<K, C>, seq<Timer<K, C>>))
    decreases |events|
  {
    if events == [] then (g, [])
    else
      var (g1, ran) := g.Step(events[0]);
      var (g2, rest) := Run(g1, events[1..]);
      (g2, (if ran.Some? then [ran.value] else []) + rest)
  }

  /** A new schedule for a loadable makes every earlier timer for it stale. */
  lemma ScheduleSupersedes<K, C>(g: Guard<K, C>, key: K, cb: C, t: Timer<K, C>)
    requires g.Valid() && g.Issued(t) && t.key == key
    ensures !g.Schedule(key, cb).Current(t)
  {
  }

  /**
   * Scheduling for one loadable changes neither the table entry of another
   * loadable nor what any of that loadable's timers does when it fires.
   */
  lemma ScheduleIsolated<K, C>(g: Guard<K, C>, key: K, cb: C, other: K)
    requires other != key
    ensures other in g.Schedule(key, cb).table <==> other in g.table
    ensures other in g.table ==> g.Schedule(key, cb).table[other] == g.table[other]
    ensures forall t: Timer<K, C> | t.key == other :: g.Schedule(key, cb).Current(t) <==> g.Current(t)
    ensures forall i | 0 <= i < |g.pending| && g.pending[i].key == other ::
      g.Schedule(key, cb).Fire(i).1 == g.Fire(i).1
  {
  }

  /** A stale timer stays stale whatever happens next, and its reload never runs. */
  lemma {:induction false} StaleNeverRuns<K, C>(g: Guard<K, C>, events: seq<Event<K, C>>, t: Timer<K, C>)
    requires g.Valid() && g.Issued(t) && !g.Current(t)
    ensures t !in Run(g, events).1
    ensures !Run(g, events).0.Current(t)
    decreases |events|
  {
    if events != [] {
      var (g1, ran) := g.Step(events[0]);
      assert !g1.Current(t) by {
        match events[0]
        case ScheduleEvent(key, cb) =>
        case TimeoutEvent(i) =>
      }
      assert ran.Some? ==> ran.value != t;
      StaleNeverRuns(g1, events[1..], t);
    }
  }

  /**
   * While nobody schedules again for its loadable, a current timer stays current
   * and is the only timer for that loadable whose reload can run.
   */
  lemma {:induction false} CurrentRunsAlone<K, C>(g: Guard<K, C>, events: seq<Event<K, C>>, t: Timer<K, C>)
    requires g.Valid() && g.Current(t) && g.SoleHolder(t)
    requires forall e | e in events :: e.ScheduleEvent? ==> e.key != t.key
    ensures Run(g, events).0.Current(t)
    ensures forall u | u in Run(g, events).1 && u.key == t.key :: u == t
    decreases |events|
  {
    if events != [] {
      var (g1, ran) := g.Step(events[0]);
      assert events[0] in events;
      assert g1.Current(t) && g1.SoleHolder(t) by {
        match events[0]
        case ScheduleEvent(key, cb) =>
          assert g1.pending == g.pending + [Timer(key, g.next, cb)];
        case TimeoutEvent(i) =>
      }
      assert ran.Some? && ran.value.key == t.key ==> ran.value == t;
      assert forall e | e in events[1..] :: e in events;
      CurrentRunsAlone(g1, events[1..], t);
    }
  }

  /**
   * Two schedules for the same loadable before either timer fires: whatever other
   * loadables do meanwhile, the earlier timer never reloads, the later one stays
   * current, and it is the only one for this loadable whose reload can run.
   */
  lemma LastScheduleWins<K, C>(g: Guard<K, C>, key: K, first: C, second: C, events: seq<Event<K, C>>)
    requires g.Valid()
    requires forall e | e in events :: e.ScheduleEvent? ==> e.key != key
    ensures var g2 := g.Schedule(key, first).Schedule(key, second);
      var r := Run(g2, events);
      && Timer(key, g.next, first) !in r.1
      && r.0.Current(Timer(key, g.next + 1, second))
      && forall u | u in r.1 && u.key == key :: u == Timer(key, g.next + 1, second)
  {
    var g1 := g.Schedule(key, first);
    var g2 := g1.Schedule(key, second);
    ScheduleSupersedes(g1, key, second, Timer(key, g.next, first));
    StaleNeverRuns(g2, events, Timer(key, g.next, first));
    CurrentRunsAlone(g2, events, Timer(key, g.next + 1, second));
  }

  /** `WEAK_MAP` together with the timers `executeLoadableEventually` has armed. */
  class HotReloadGuard<K(==), C(==)> {
    var table: map<K, Token>
    var next: Token
    var pending: seq<Timer<K, C>>

    function State(): Guard<K, C>
      reads this
    {
      Guard(table, next, pending)
    }

    constructor ()
      ensures State().Valid()
      ensures State() == Empty()
    {
      table, next, pending := map[], 0, [];
    }

    /** `executeLoadableEventually(key, cb)`, up to arming the timer. */
    method Schedule(key: K, cb: C)
      requires State().Valid()
      modifies this
      ensures State().Valid()
      ensures State() == old(State()).Schedule(key, cb)
    {
      table := table[key := next];
      pending := pending + [Timer(key, next, cb)];
      next := next + 1;
    }

    /** The timeout callback of pending timer `i`; `ran` is the timer whose reload must now run. */
    method Fire(i: nat) returns (ran: Option<Timer<K, C>>)
      requires State().Valid() && i < |pending|
      modifies this
      ensures State().Valid()
      ensures (State(), ran) == old(State()).Fire(i)
    {
      var t := pending[i];
      pending := pending[..i] + pending[i + 1..];
      if t.key in table && table[t.key] == t.token {
        ran := Some(t);
      } else {
        ran := None;
      }
    }
  }
}
