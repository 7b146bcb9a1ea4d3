/**
 * The SIGINT handler of the host: raise the stop flag, give the plugin threads
 * a grace period, stop every plugin, wait again, call `dlclose` for every plugin,
 * destroy the synchronisation objects and exit with status 0.
 */
module Shutdown {
  import opened Events

  /** The pause between raising the stop flag and stopping, and between stopping and closing, in microseconds. */
  const GraceMicros: nat := 1000 * 1000

  /** The first half of the handler: raise the stop flag, wait, stop every plugin, wait. */
  function Quiesce(n: nat): (t: seq<Event>)
    ensures |t| == n + 4
  {
    [SetStop, Sleep(GraceMicros)] + ForEach(Order(n), Stopping) + [Sleep(GraceMicros)]
  }

  /** The second half of the handler: call `dlclose` for every plugin, destroy the condition variable and the mutex, exit. */
  function Release(n: nat): (t: seq<Event>)
    ensures |t| == n + 4
  {
    ForEach(Order(n), Closing) + [DestroyCond, DestroyMutex, Exit(0)]
  }

  /** The handler, for a host that drives `n` output plugins besides its input plugin. */
  function SignalHandler(n: nat): (t: seq<Event>)
    ensures |t| == 2 * (n + 1) + 6
  {
    Quiesce(n) + Release(n)
  }

  /** The handler's steps that have a fixed place in its order; the sleeps do not. */
  predicate Ranked(e: Event) {
    e.SetStop? || e.Stop? || e.Close? || e.DestroyCond? || e.DestroyMutex? || e.Exit?
  }

  /** The stage of a ranked step: the flag, then stopping, closing, the condition variable, the mutex, the exit. */
  function Rank(e: Event): nat
    requires Ranked(e)
  {
    if e.SetStop? then 0
    else if e.Stop? then 1
    else if e.Close? then 2
    else if e.DestroyCond? then 3
    else if e.DestroyMutex? then 4
    else 5
  }

  /** Where each step of the handler sits, for a host driving `n` outputs: `m = n + 1` plugins in all. */
  lemma {:induction false} HandlerAt(n: nat, k: nat)
    requires k < |SignalHandler(n)|
    ensures var t := SignalHandler(n);
            var m := n + 1;
            t[k] == if k == 0 then SetStop
                    else if k == 1 then Sleep(GraceMicros)
                    else if k < m + 2 then Stop(Order(n)[k - 2])
                    else if k == m + 2 then Sleep(GraceMicros)
                    else if k < 2 * m + 3 then Close(Order(n)[k - m - 3])
                    else if k == 2 * m + 3 then DestroyCond
                    else if k == 2 * m + 4 then DestroyMutex
                    else Exit(0)
  {
    var m := n + 1;
    var q := Quiesce(n);
    var r := Release(n);
    if k < |q| {
      assert SignalHandler(n)[k] == q[k];
      if 2 <= k < m + 2 {
        assert q[k] == ForEach(Order(n), Stopping)[k - 2];
      }
    } else {
      assert SignalHandler(n)[k] == r[k - |q|];
      if k < 2 * m + 3 {
        assert r[k - |q|] == ForEach(Order(n), Closing)[k - m - 3];
      }
    }
  }

  /**
   * The handler raises the stop flag first and exits with status 0 last, with
   * no exit or wait before that, and it passes through its stages in order:
   * every plugin is stopped before any is closed, and the condition variable
   * and then the mutex are destroyed only after every plugin was closed.
   */
  lemma {:induction false} HandlerOrder(n: nat)
    ensures var t := SignalHandler(n);
            && t[0] == SetStop
            && Ends(t, Exit(0))
            && Settled(t)
            && forall i, j | 0 <= i < j < |t| && Ranked(t[i]) && Ranked(t[j]) :: Rank(t[i]) <= Rank(t[j])
  {
    var t := SignalHandler(n);
    HandlerAt(n, 0);
    HandlerAt(n, |t| - 1);
    forall k | 0 <= k < |t| - 1 ensures !t[k].Exit? && t[k] != Pause {
      HandlerAt(n, k);
    }
    HandlerRanks(n);
  }

  /** The stage the handler has reached at its `k`-th step, for a host driving `n` outputs; it never goes back. */
  function Stage(n: nat, k: nat): nat {
    var m := n + 1;
    if k == 0 then 0
    else if k < m + 3 then 1
    else if k < 2 * m + 3 then 2
    else if k == 2 * m + 3 then 3
    else if k == 2 * m + 4 then 4
    else 5
  }

  /** A ranked step of the handler has the rank of the stage it sits in. */
  lemma {:induction false} HandlerRank(n: nat, k: nat)
    requires k < |SignalHandler(n)|
    ensures Ranked(SignalHandler(n)[k]) ==> Rank(SignalHandler(n)[k]) == Stage(n, k)
  {
    HandlerAt(n, k);
  }

  /** The ranked steps of the handler come in the order of their ranks. */
  lemma {:induction false} HandlerRanks(n: nat)
    ensures var t := SignalHandler(n);
            forall i, j | 0 <= i < j < |t| && Ranked(t[i]) && Ranked(t[j]) :: Rank(t[i]) <= Rank(t[j])
  {
    var t := SignalHandler(n);
    forall i, j | 0 <= i < j < |t| && Ranked(t[i]) && Ranked(t[j]) ensures Rank(t[i]) <= Rank(t[j]) {
      HandlerRank(n, i);
      HandlerRank(n, j);
    }
  }

  /**
   * The handler waits the full grace period after raising the stop flag before
   * it stops any plugin, and again after stopping before it closes any.
   */
  lemma {:induction false} HandlerGrace(n: nat)
    ensures var t := SignalHandler(n);
            && (forall j | 0 <= j < |t| && t[j].Stop? ::
                  exists k | 0 < k < j :: t[k] == Sleep(GraceMicros))
            && (forall i, j | 0 <= i < j < |t| && t[i].Stop? && t[j].Close? ::
                  exists k | i < k < j :: t[k] == Sleep(GraceMicros))
  {
    var t := SignalHandler(n);
    var m := n + 1;
    HandlerAt(n, 1);
    HandlerAt(n, m + 2);
    forall j | 0 <= j < |t| && t[j].Stop? ensures exists k | 0 < k < j :: t[k] == Sleep(GraceMicros) {
      HandlerAt(n, j);
      assert t[1] == Sleep(GraceMicros);
    }
    forall i, j | 0 <= i < j < |t| && t[i].Stop? && t[j].Close?
      ensures exists k | i < k < j :: t[k] == Sleep(GraceMicros)
    {
      HandlerAt(n, i);
      HandlerAt(n, j);
      assert t[m + 2] == Sleep(GraceMicros);
    }
  }

  /** The first half of the handler stops every plugin, in the host's order, and nothing else. */
  lemma {:induction false} QuiesceEntering(n: nat, p: Phase)
    ensures Entering(Quiesce(n), p) == if p == Stopped then Order(n) else []
  {
    var b := ForEach(Order(n), Stopping);
    Unbound([SetStop, Sleep(GraceMicros)]);
    Unbound([Sleep(GraceMicros)]);
    ForEachEntering(Order(n), Stopping, p);
    EnteringAppend([SetStop, Sleep(GraceMicros)] + b, [Sleep(GraceMicros)], p);
    EnteringAppend([SetStop, Sleep(GraceMicros)], b, p);
  }

  /** The handler stops every plugin, in the host's order, and then closes every plugin in the same order; it loads and starts none. */
  lemma {:induction false} HandlerEntering(n: nat, p: Phase)
    ensures Entering(SignalHandler(n), p) == if p == Stopped || p == Closed then Order(n) else []
  {
    var d := ForEach(Order(n), Closing);
    QuiesceEntering(n, p);
    Unbound([DestroyCond, DestroyMutex, Exit(0)]);
    ForEachEntering(Order(n), Closing, p);
    EnteringAppend(d, [DestroyCond, DestroyMutex, Exit(0)], p);
    assert Entering(Release(n), p) == if p == Closed then Order(n) else [];
    EnteringAppend(Quiesce(n), Release(n), p);
  }

  /** The first half of the handler stops each of the host's slots once, and touches no other. */
  lemma {:induction false} QuiesceLifecycle(n: nat, r: Role)
    ensures Lifecycle(Quiesce(n), r) == if InOrder(r, n) then [Stopped] else []
  {
    var b := ForEach(Order(n), Stopping);
    OrderFacts(n);
    Unbound([SetStop, Sleep(GraceMicros)]);
    Unbound([Sleep(GraceMicros)]);
    ForEachLifecycle(Order(n), Stopping, r);
    LifecycleAppend([SetStop, Sleep(GraceMicros)] + b, [Sleep(GraceMicros)], r);
    LifecycleAppend([SetStop, Sleep(GraceMicros)], b, r);
    NoPhases(Lifecycle(b, r));
  }

  /** The second half of the handler closes each of the host's slots once, and touches no other. */
  lemma {:induction false} ReleaseLifecycle(n: nat, r: Role)
    ensures Lifecycle(Release(n), r) == if InOrder(r, n) then [Closed] else []
  {
    var d := ForEach(Order(n), Closing);
    OrderFacts(n);
    Unbound([DestroyCond, DestroyMutex, Exit(0)]);
    ForEachLifecycle(Order(n), Closing, r);
    LifecycleAppend(d, [DestroyCond, DestroyMutex, Exit(0)], r);
    NoPhases(Lifecycle(d, r));
  }

  /** Each binding the host drives is stopped once and then closed once by the handler; no other slot is touched. */
  lemma {:induction false} HandlerLifecycle(n: nat, r: Role)
    ensures Lifecycle(SignalHandler(n), r) == if InOrder(r, n) then [Stopped, Closed] else []
  {
    QuiesceLifecycle(n, r);
    ReleaseLifecycle(n, r);
    LifecycleAppend(Quiesce(n), Release(n), r);
    PhaseJoins();
    NoPhases([]);
  }
}
