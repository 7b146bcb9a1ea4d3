/**
 * The observable steps of the host process, as one trace of events, and the
 * projections used to state ordering rules about such traces.
 */
module Events {
  import opened Wrappers

  /** A plugin slot: the single input plugin, or output plugin number `index`. */
  datatype Role = Input | Output(index: nat)

  /** The diagnostics the host prints before exiting with a failure status. */
  datatype Failure =
    | MutexInitFailed
    | CondInitFailed
    | HandlerInstallFailed
    | PluginNotFound(plugin: Role)
    | SymbolMissing(plugin: Role, symbol: string)

  datatype Event =
    | ShowHelp                                   // help text printed
    | ShowVersion                                // version text printed
    | Daemonize                                  // forked into the background
    | ResetState                                 // stop flag 0, frame buffer NULL, frame size 0, input plugin name NULL
    | MutexInit                                  // frame-buffer mutex created
    | CondInit                                   // frame-update condition variable created
    | InstallHandler                             // SIGPIPE ignored, SIGINT handler registered
    | Open(role: Role, file: string)             // dlopen is called on the plugin's file
    | Bind(role: Role, hasCmd: bool)             // init, stop and run resolved; cmd if present
    | Init(role: Role, parameters: Option<string>)
    | Run(role: Role)
    | Pause                                      // main blocks until a signal arrives
    | SetStop                                    // the stop flag becomes 1
    | Sleep(micros: nat)
    | Stop(role: Role)
    | Close(role: Role)                          // dlclose is called for the plugin
    | DestroyCond
    | DestroyMutex
    | Report(failure: Failure)
    | Exit(code: int)

  /**
   * The stages of one plugin binding, in the order they are meant to happen.
   * `Opened` is entered when opening the plugin's file is attempted, whether or
   * not `dlopen` succeeds; `Closed` when `dlclose` is called for the plugin.
   */
  datatype Phase = Opened | Bound | Initialised | Started | Stopped | Closed

  /** The event concerns one plugin binding. */
  predicate HasRole(e: Event) {
    e.Open? || e.Bind? || e.Init? || e.Run? || e.Stop? || e.Close?
  }

  function PhaseOf(e: Event): Phase
    requires HasRole(e)
  {
    match e
    case Open(_, _) => Opened
    case Bind(_, _) => Bound
    case Init(_, _) => Initialised
    case Run(_) => Started
    case Stop(_) => Stopped
    case Close(_) => Closed
  }

  /** The phases the binding in slot `r` passes through in `t`, in order. */
  function Lifecycle(t: seq<Event>, r: Role): seq<Phase> {
    if |t| == 0 then []
    else (if HasRole(t[0]) && t[0].role == r then [PhaseOf(t[0])] else []) + Lifecycle(t[1..], r)
  }

  /** The slots whose binding enters phase `p` in `t`, in order. */
  function Entering(t: seq<Event>, p: Phase): seq<Role> {
    if |t| == 0 then []
    else (if HasRole(t[0]) && PhaseOf(t[0]) == p then [t[0].role] else []) + Entering(t[1..], p)
  }

  lemma {:induction false} LifecycleAppend(a: seq<Event>, b: seq<Event>, r: Role)
    ensures Lifecycle(a + b, r) == Lifecycle(a, r) + Lifecycle(b, r)
    decreases |a|
  {
    if |a| > 0 {
      assert (a + b)[1..] == a[1..] + b;
      LifecycleAppend(a[1..], b, r);
    } else {
      assert a + b == b;
    }
  }

  lemma {:induction false} EnteringAppend(a: seq<Event>, b: seq<Event>, p: Phase)
    ensures Entering(a + b, p) == Entering(a, p) + Entering(b, p)
    decreases |a|
  {
    if |a| > 0 {
      assert (a + b)[1..] == a[1..] + b;
      EnteringAppend(a[1..], b, p);
    } else {
      assert a + b == b;
    }
  }

  /** Prepending one event adds its phase in front, for the binding it concerns. */
  lemma {:induction false} LifecycleCons(e: Event, t: seq<Event>, r: Role)
    ensures Lifecycle([e] + t, r) == (if HasRole(e) && e.role == r then [PhaseOf(e)] else []) + Lifecycle(t, r)
  {
    assert ([e] + t)[0] == e;
    assert ([e] + t)[1..] == t;
  }

  /** Prepending one event adds its slot in front, for the phase it enters. */
  lemma {:induction false} EnteringCons(e: Event, t: seq<Event>, p: Phase)
    ensures Entering([e] + t, p) == (if HasRole(e) && PhaseOf(e) == p then [e.role] else []) + Entering(t, p)
  {
    assert ([e] + t)[0] == e;
    assert ([e] + t)[1..] == t;
  }

  /** A one-event trace projects to that event's phase, for the binding it concerns. */
  lemma Single(e: Event)
    ensures forall r :: Lifecycle([e], r) == if HasRole(e) && e.role == r then [PhaseOf(e)] else []
    ensures forall p :: Entering([e], p) == if HasRole(e) && PhaseOf(e) == p then [e.role] else []
  {
    assert [e][1..] == [];
  }

  /** Binding slot `r` and initialising it, followed by events that concern no binding, enters exactly those two phases for `r`. */
  lemma {:induction false} BindInitProjections(r: Role, hasCmd: bool, parameters: Option<string>, tail: seq<Event>)
    requires forall k | 0 <= k < |tail| :: !HasRole(tail[k])
    ensures var t := [Bind(r, hasCmd)] + ([Init(r, parameters)] + tail);
            && (forall p :: Entering(t, p) == if p == Bound || p == Initialised then [r] else [])
            && (forall r' :: Lifecycle(t, r') == if r' == r then [Bound] + [Initialised] else [])
  {
    var e2 := Init(r, parameters);
    Unbound(tail);
    forall p ensures Entering([Bind(r, hasCmd)] + ([e2] + tail), p) == if p == Bound || p == Initialised then [r] else [] {
      EnteringCons(e2, tail, p);
      EnteringCons(Bind(r, hasCmd), [e2] + tail, p);
      OneSlot(r);
    }
    forall r' ensures Lifecycle([Bind(r, hasCmd)] + ([e2] + tail), r') == if r' == r then [Bound] + [Initialised] else [] {
      LifecycleCons(e2, tail, r');
      LifecycleCons(Bind(r, hasCmd), [e2] + tail, r');
      NoPhases([Initialised]);
    }
  }

  /** An event that concerns no binding leaves every projection unchanged. */
  lemma {:induction false} Unbound(t: seq<Event>)
    requires forall k | 0 <= k < |t| :: !HasRole(t[k])
    ensures forall r :: Lifecycle(t, r) == []
    ensures forall p :: Entering(t, p) == []
    decreases |t|
  {
    if |t| > 0 {
      Unbound(t[1..]);
    }
  }

  /** Output slots `i` up to but excluding `n`, in index order. */
  function OutputsFrom(i: nat, n: nat): (rs: seq<Role>)
    ensures |rs| == if i < n then n - i else 0
    ensures forall k | 0 <= k < |rs| :: rs[k] == Output(i + k)
    decreases n - i
  {
    if i >= n then [] else [Output(i)] + OutputsFrom(i + 1, n)
  }

  /** The order in which the host drives its `n + 1` plugins: the input, then the outputs by index. */
  function Order(n: nat): (rs: seq<Role>)
    ensures |rs| == n + 1
    ensures rs[0] == Input
    ensures forall k | 1 <= k <= n :: rs[k] == Output(k - 1)
  {
    [Input] + OutputsFrom(0, n)
  }

  /** No slot appears twice. */
  predicate Distinct(rs: seq<Role>) {
    forall i, j | 0 <= i < j < |rs| :: rs[i] != rs[j]
  }

  /** The tail of a list of distinct slots is distinct and lacks the head; membership splits into head and tail. */
  lemma {:induction false} DistinctTail(rs: seq<Role>)
    requires 0 < |rs| && Distinct(rs)
    ensures Distinct(rs[1..])
    ensures rs[0] !in rs[1..]
    ensures forall r :: r in rs <==> r == rs[0] || r in rs[1..]
  {
    assert rs == [rs[0]] + rs[1..];
    forall i, j | 0 <= i < j < |rs[1..]| ensures rs[1..][i] != rs[1..][j] {
      assert rs[1..][i] == rs[i + 1] && rs[1..][j] == rs[j + 1];
    }
    forall k | 0 <= k < |rs[1..]| ensures rs[1..][k] != rs[0] {
      assert rs[1..][k] == rs[k + 1];
    }
  }

  /** A slot belongs to a host driving `n` outputs. */
  predicate InOrder(r: Role, n: nat) {
    r.Input? || r.index < n
  }

  lemma {:induction false} OrderFacts(n: nat)
    ensures Distinct(Order(n))
    ensures forall r :: r in Order(n) <==> InOrder(r, n)
  {
    var rs := Order(n);
    forall r | InOrder(r, n) ensures r in rs {
      if r.Output? {
        assert rs[r.index + 1] == r;
      }
    }
  }

  /** The bulk actions the shutdown and startup sequences apply to every slot in turn. */
  datatype Action = Starting | Stopping | Closing

  function ActionPhase(a: Action): Phase {
    match a
    case Starting => Started
    case Stopping => Stopped
    case Closing => Closed
  }

  function Apply(a: Action, r: Role): Event {
    match a
    case Starting => Run(r)
    case Stopping => Stop(r)
    case Closing => Close(r)
  }

  /** Action `a` applied to each slot of `rs` in turn. */
  function ForEach(rs: seq<Role>, a: Action): (t: seq<Event>)
    ensures |t| == |rs|
    ensures forall k | 0 <= k < |t| :: t[k] == Apply(a, rs[k])
  {
    if |rs| == 0 then [] else [Apply(a, rs[0])] + ForEach(rs[1..], a)
  }

  /** Applying an action to a list of slots enters its phase once for each of them, in order, and no other phase. */
  lemma {:induction false} ForEachEntering(rs: seq<Role>, a: Action, p: Phase)
    ensures Entering(ForEach(rs, a), p) == if p == ActionPhase(a) then rs else []
    decreases |rs|
  {
    if |rs| > 0 {
      var e := Apply(a, rs[0]);
      assert ForEach(rs, a) == [e] + ForEach(rs[1..], a);
      assert HasRole(e) && e.role == rs[0] && PhaseOf(e) == ActionPhase(a);
      EnteringCons(e, ForEach(rs[1..], a), p);
      ForEachEntering(rs[1..], a, p);
      ConsSplit(rs);
      NoSlots([]);
    }
  }

  /** Applying an action to distinct slots gives each listed slot exactly one step of that phase. */
  lemma {:induction false} ForEachLifecycle(rs: seq<Role>, a: Action, r: Role)
    requires Distinct(rs)
    ensures Lifecycle(ForEach(rs, a), r) == if r in rs then [ActionPhase(a)] else []
    decreases |rs|
  {
    if |rs| > 0 {
      var e := Apply(a, rs[0]);
      assert ForEach(rs, a) == [e] + ForEach(rs[1..], a);
      assert HasRole(e) && e.role == rs[0] && PhaseOf(e) == ActionPhase(a);
      LifecycleCons(e, ForEach(rs[1..], a), r);
      DistinctTail(rs);
      ForEachLifecycle(rs[1..], a, r);
      NoPhases([ActionPhase(a)]);
    }
  }

  /** The process has ended: the last event is an exit. */
  predicate Exited(t: seq<Event>) {
    0 < |t| && t[|t| - 1].Exit?
  }

  /** The trace ends with event `e`. */
  predicate Ends(t: seq<Event>, e: Event) {
    0 < |t| && t[|t| - 1] == e
  }

  /** `t` followed by `u`, unless `t` has already ended the process. */
  function Then(t: seq<Event>, u: seq<Event>): seq<Event> {
    if Exited(t) then t else t + u
  }

  /** No event of the trace ends the process. */
  predicate Running(t: seq<Event>) {
    forall k | 0 <= k < |t| :: !t[k].Exit?
  }

  /** An exit can only be the last event of the trace. */
  predicate ExitOnlyAtEnd(t: seq<Event>) {
    forall k | 0 <= k < |t| - 1 :: !t[k].Exit?
  }

  lemma {:induction false} RunningAppend(a: seq<Event>, b: seq<Event>)
    ensures Running(a + b) <==> Running(a) && Running(b)
  {
    if Running(a + b) {
      assert forall k | 0 <= k < |a| :: a[k] == (a + b)[k];
      assert forall k | 0 <= k < |b| :: b[k] == (a + b)[k + |a|];
    }
  }

  lemma {:induction false} ExitOnlyAtEndAppend(a: seq<Event>, b: seq<Event>)
    requires Running(a) && ExitOnlyAtEnd(b)
    ensures ExitOnlyAtEnd(a + b)
  {
    forall k | 0 <= k < |a + b| - 1 ensures !(a + b)[k].Exit? {
      if k >= |a| {
        assert (a + b)[k] == b[k - |a|];
      }
    }
  }

  /** An exit or a pause can only be the last event of the trace. */
  predicate Settled(t: seq<Event>) {
    forall k | 0 <= k < |t| - 1 :: !t[k].Exit? && t[k] != Pause
  }

  /** The trace neither ends the process nor waits. */
  predicate Quiet(t: seq<Event>) {
    forall k | 0 <= k < |t| :: !t[k].Exit? && t[k] != Pause
  }

  lemma {:induction false} QuietAppend(a: seq<Event>, b: seq<Event>)
    ensures Quiet(a + b) <==> Quiet(a) && Quiet(b)
  {
    if Quiet(a + b) {
      assert forall k | 0 <= k < |a| :: a[k] == (a + b)[k];
      assert forall k | 0 <= k < |b| :: b[k] == (a + b)[k + |a|];
    }
  }

  lemma {:induction false} SettledAppend(a: seq<Event>, b: seq<Event>)
    requires Quiet(a) && Settled(b)
    ensures Settled(a + b)
  {
    forall k | 0 <= k < |a + b| - 1 ensures !(a + b)[k].Exit? && (a + b)[k] != Pause {
      if k >= |a| {
        assert (a + b)[k] == b[k - |a|];
      }
    }
  }

  /** A non-empty trace that exits only at its end has exited exactly when it does not keep running. */
  lemma {:induction false} ExitedUnlessRunning(t: seq<Event>)
    requires 0 < |t| && ExitOnlyAtEnd(t)
    ensures Exited(t) <==> !Running(t)
  {
  }

  /** A settled trace that ends with `e` still does so after a quiet prefix. */
  lemma {:induction false} QuietThen(a: seq<Event>, b: seq<Event>, e: Event)
    requires Quiet(a) && Settled(b) && Ends(b, e)
    ensures Settled(a + b) && Ends(a + b, e)
  {
    SettledAppend(a, b);
    EndsAppend(a, b, e);
  }

  /** A prefix that enters no phase leaves the slots entering a phase to what follows. */
  lemma {:induction false} EnteringAfterUnbound(a: seq<Event>, b: seq<Event>, p: Phase)
    requires Entering(a, p) == []
    ensures Entering(a + b, p) == Entering(b, p)
  {
    EnteringAppend(a, b, p);
    NoSlots(Entering(b, p));
  }

  /** A trace that never waits and exits only at its end is settled, and quiet exactly when it keeps running. */
  lemma {:induction false} SettledWithoutPause(t: seq<Event>)
    requires forall k | 0 <= k < |t| :: t[k] != Pause
    requires ExitOnlyAtEnd(t)
    ensures Settled(t)
    ensures Quiet(t) <==> Running(t)
  {
  }

  /** Appending a non-empty trace decides how the whole ends. */
  lemma {:induction false} EndsAppend(a: seq<Event>, b: seq<Event>, e: Event)
    requires 0 < |b|
    ensures Ends(a + b, e) <==> Ends(b, e)
    ensures Exited(a + b) <==> Exited(b)
  {
    assert (a + b)[|a + b| - 1] == b[|b| - 1];
  }

  /** Appending to a trace keeps its first `n` events. */
  lemma {:induction false} PrefixKept(a: seq<Event>, b: seq<Event>, n: nat)
    requires n <= |a|
    ensures n <= |a + b| && (a + b)[..n] == a[..n]
  {
    assert forall k | 0 <= k < n :: (a + b)[k] == a[k];
  }

  /** A step of loading a plugin: opening it, resolving its entry points or initialising it. */
  predicate IsLoad(e: Event) {
    e.Open? || e.Bind? || e.Init?
  }

  /** No plugin is loaded after any plugin has been started. */
  predicate NoLoadAfterRun(t: seq<Event>) {
    forall i, j | 0 <= i < j < |t| :: !(t[i].Run? && IsLoad(t[j]))
  }

  /** Whenever a plugin is opened, every plugin opened before it has already been initialised. */
  predicate InitsBeforeNextOpen(t: seq<Event>) {
    forall p | 0 <= p < |t| && t[p].Open? :: Entering(t[..p], Initialised) == Entering(t[..p], Opened)
  }

  /** No plugin is started in the trace. */
  predicate NoRun(t: seq<Event>) {
    forall k | 0 <= k < |t| :: !t[k].Run?
  }

  lemma {:induction false} NoRunAppend(a: seq<Event>, b: seq<Event>)
    requires NoRun(a) && NoRun(b)
    ensures NoRun(a + b)
  {
    forall k | 0 <= k < |a + b| ensures !(a + b)[k].Run? {
      if k >= |a| {
        assert (a + b)[k] == b[k - |a|];
      }
    }
  }

  lemma {:induction false} NoLoadAfterRunAppend(a: seq<Event>, b: seq<Event>)
    requires NoRun(a)
    requires NoLoadAfterRun(b)
    ensures NoLoadAfterRun(a + b)
  {
    forall i, j | 0 <= i < j < |a + b| ensures !((a + b)[i].Run? && IsLoad((a + b)[j])) {
      if i >= |a| {
        assert (a + b)[i] == b[i - |a|] && (a + b)[j] == b[j - |a|];
      }
    }
  }

  lemma {:induction false} InitsBeforeNextOpenAppend(a: seq<Event>, b: seq<Event>)
    requires InitsBeforeNextOpen(a) && InitsBeforeNextOpen(b)
    requires Entering(a, Initialised) == Entering(a, Opened)
    ensures InitsBeforeNextOpen(a + b)
  {
    var t := a + b;
    forall p | 0 <= p < |t| && t[p].Open?
      ensures Entering(t[..p], Initialised) == Entering(t[..p], Opened)
    {
      if p < |a| {
        assert t[..p] == a[..p];
        assert a[p] == t[p];
      } else {
        var q := p - |a|;
        assert t[..p] == a + b[..q];
        assert b[q] == t[p];
        EnteringAppend(a, b[..q], Initialised);
        EnteringAppend(a, b[..q], Opened);
      }
    }
  }

  /** A trace in which no plugin is started trivially meets the rule. */
  lemma NoRunMeetsNoLoadAfterRun(t: seq<Event>)
    requires NoRun(t)
    ensures NoLoadAfterRun(t)
  {
  }

  /** A trace in which no plugin is opened trivially meets the rule. */
  lemma NoOpenMeetsInitsBeforeNextOpen(t: seq<Event>)
    requires forall k | 0 <= k < |t| :: !t[k].Open?
    ensures InitsBeforeNextOpen(t)
  {
  }

  /** The two calls into a plugin whose arguments come from its spec: `dlopen` with the file name, and init with the parameter string. */
  datatype CallKind = OpenCall | InitCall

  predicate IsCall(e: Event, k: CallKind) {
    match k
    case OpenCall => e.Open?
    case InitCall => e.Init?
  }

  /** The phase a slot enters when it receives a call of kind `k`. */
  function CallPhase(k: CallKind): Phase {
    match k
    case OpenCall => Opened
    case InitCall => Initialised
  }

  /** The steps of `t` that are calls of kind `k`, in order. */
  function Calls(t: seq<Event>, k: CallKind): (c: seq<Event>)
    ensures |c| <= |t|
    ensures forall j | 0 <= j < |c| :: IsCall(c[j], k)
    decreases |t|
  {
    if |t| == 0 then [] else (if IsCall(t[0], k) then [t[0]] else []) + Calls(t[1..], k)
  }

  lemma {:induction false} CallsAppend(a: seq<Event>, b: seq<Event>, k: CallKind)
    ensures Calls(a + b, k) == Calls(a, k) + Calls(b, k)
    decreases |a|
  {
    if |a| > 0 {
      assert (a + b)[1..] == a[1..] + b;
      CallsAppend(a[1..], b, k);
    } else {
      assert a + b == b;
    }
  }

  lemma {:induction false} CallsCons(e: Event, t: seq<Event>, k: CallKind)
    ensures Calls([e] + t, k) == (if IsCall(e, k) then [e] else []) + Calls(t, k)
  {
    assert ([e] + t)[0] == e;
    assert ([e] + t)[1..] == t;
  }

  /** A trace without `Open` or `Init` steps makes no calls of either kind. */
  lemma {:induction false} NoCalls(t: seq<Event>, k: CallKind)
    requires forall j | 0 <= j < |t| :: !t[j].Open? && !t[j].Init?
    ensures Calls(t, k) == []
    decreases |t|
  {
    if |t| > 0 {
      NoCalls(t[1..], k);
    }
  }

  // Sequence identities, stated once by name so that the proofs above can hand
  // them to the solver without re-deriving them in a large context. They say
  // nothing about the host: empty lists are neutral, concatenation is
  // associative, and taking a prefix interacts with head and tail as expected.

  /** The phase lists that the life of one binding is assembled from, written out. */
  lemma PhaseJoins()
    ensures [Opened] + ([Bound] + [Initialised]) == [Opened, Bound, Initialised]
    ensures [Opened, Bound, Initialised] + [Started] == [Opened, Bound, Initialised, Started]
    ensures [Stopped] + [Closed] == [Stopped, Closed]
    ensures [Opened, Bound, Initialised, Started] + [Stopped, Closed]
            == [Opened, Bound, Initialised, Started, Stopped, Closed]
  {
  }

  lemma {:induction false} NoPhases(l: seq<Phase>)
    ensures l + [] == l && [] + l == l
  {
  }

  /** A prefix of the start-up phases is a prefix of the whole life of a binding. */
  lemma {:induction false} StartupPrefixWidens(l: seq<Phase>)
    requires l <= [Opened, Bound, Initialised, Started]
    ensures l <= [Opened, Bound, Initialised, Started, Stopped, Closed]
  {
    var full := [Opened, Bound, Initialised, Started, Stopped, Closed];
    assert full[..4] == [Opened, Bound, Initialised, Started];
    assert full[..|l|] == full[..4][..|l|];
  }

  /** Taking `m + 1` slots is taking the head, then `m` slots of the tail. */
  lemma {:induction false} TakeCons(rs: seq<Role>, m: nat)
    requires m < |rs|
    ensures rs[..m + 1] == [rs[0]] + rs[1..][..m]
  {
  }

  /** Taking one more slot appends that slot. */
  lemma {:induction false} TakeSnoc(rs: seq<Role>, c: nat)
    requires c < |rs|
    ensures rs[..c] + [rs[c]] == rs[..c + 1]
  {
  }

  lemma {:induction false} OneSlot(r: Role)
    ensures [r] + [] == [r] && [] + [r] == [r]
    ensures [r] + ([] + []) == [r] && [] + ([r] + []) == [r]
  {
  }

  /** A non-empty list of slots is its head followed by its tail. */
  lemma {:induction false} ConsSplit(rs: seq<Role>)
    requires 0 < |rs|
    ensures [rs[0]] + rs[1..] == rs
  {
  }

  lemma {:induction false} NoSlots(x: seq<Role>)
    ensures x + [] == x && [] + x == x
  {
  }

  lemma {:induction false} TakeAll(rs: seq<Role>)
    ensures rs[..|rs|] == rs
  {
  }

  lemma {:induction false} Assoc(a: seq<Event>, b: seq<Event>, c: seq<Event>)
    ensures a + (b + c) == a + b + c
  {
  }
}
