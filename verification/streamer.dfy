/**
 * The host's `main` as a whole: parse the options, fork into the background if
 * asked, set up the shared state and the signal handlers, load every plugin,
 * start them all and wait for a signal; and the complete life of the process
 * when that signal comes and the handler shuts everything down.
 */
module Streamer {
  import opened Wrappers
  import opened Events
  import opened Startup
  import PluginSpec
  import Options
  import Shutdown

  /** The mutex, the condition variable and the signal handler were all set up. */
  predicate SyncReady(h: Host) {
    h.mutexOk && h.condOk && h.handlerOk
  }

  /** The spec each slot is loaded from: the input spec, then the output specs by index. */
  function Specs(cfg: Options.Config): seq<string> {
    [cfg.input] + Options.EffectiveOutputs(cfg)
  }

  /** The slots the host drives under `cfg`: the input, then each effective output. */
  function Slots(cfg: Options.Config): seq<Role> {
    Order(|Options.EffectiveOutputs(cfg)|)
  }

  /** Forking into the background, when `-b` was given. */
  function Prelude(cfg: Options.Config): seq<Event> {
    if cfg.daemon then [Daemonize] else []
  }

  /** Reset the shared state, create the mutex and the condition variable, ignore SIGPIPE and install the SIGINT handler. */
  function Setup(h: Host): seq<Event> {
    [ResetState] +
    if !h.mutexOk then [Report(MutexInitFailed), Exit(ExitFailure)]
    else if !h.condOk then [MutexInit, Report(CondInitFailed), Exit(ExitFailure)]
    else if !h.handlerOk then [MutexInit, CondInit, Report(HandlerInstallFailed), Exit(ExitFailure)]
    else [MutexInit, CondInit, InstallHandler]
  }

  /** Start every plugin, the input first, then wait for a signal. */
  function Launch(rs: seq<Role>): seq<Event> {
    ForEach(rs, Starting) + [Pause]
  }

  /** Start-up once the options are parsed: set up, load every plugin, start every plugin, wait. */
  function Boot(cfg: Options.Config, h: Host): seq<Event> {
    Then(Then(Setup(h), LoadAll(Slots(cfg), Specs(cfg), h)), Launch(Slots(cfg)))
  }

  /** The host's `main`, from its parsed options to the point where it waits for a signal or has exited. */
  function Main(opts: seq<Options.Opt>, h: Host): seq<Event>
    requires Options.WithinCapacity(opts)
  {
    match Options.Parse(opts)
    case Quit(HelpShown) => [ShowHelp, Exit(0)]
    case Quit(VersionShown) => [ShowVersion, Exit(0)]
    case Proceed(cfg) => Prelude(cfg) + Boot(cfg, h)
  }

  /**
   * The whole life of the process: `main`, and then, if it reached its wait
   * and an interrupt arrives, the signal handler.
   */
  function Session(opts: seq<Options.Opt>, h: Host, interrupted: bool): seq<Event>
    requires Options.WithinCapacity(opts)
  {
    var t := Main(opts, h);
    if interrupted && Ends(t, Pause) then t + Shutdown.SignalHandler(Options.OutputCount(Options.Parse(opts)))
    else t
  }

  // Reference definitions, stated in terms of the outcomes alone.

  /** Every plugin the host drives under `cfg` becomes ready. */
  predicate AllReady(cfg: Options.Config, h: Host) {
    ReadyCount(h, Slots(cfg)) == |Slots(cfg)|
  }

  /** Start-up gets through set-up and every plugin. */
  predicate Serves(opts: seq<Options.Opt>, h: Host)
    requires Options.WithinCapacity(opts)
  {
    Options.Parse(opts).Proceed? && SyncReady(h) && AllReady(Options.Parse(opts).cfg, h)
  }

  /** How `main` ends: it waits, or exits with a status decided by the first thing that went wrong. */
  function ExpectedEnd(opts: seq<Options.Opt>, h: Host): Event
    requires Options.WithinCapacity(opts)
  {
    match Options.Parse(opts)
    case Quit(_) => Exit(0)
    case Proceed(cfg) =>
      if !SyncReady(h) then Exit(ExitFailure)
      else if AllReady(cfg, h) then Pause
      else Exit(ExitCode(LibraryFor(h, Slots(cfg)[ReadyCount(h, Slots(cfg))])))
  }

  /**
   * The slots whose binding enters phase `p` during start-up, in order, judged
   * from the outcomes alone: none if set-up fails; otherwise every plugin up to
   * the first that does not become ready has its opening attempted, those whose entry points
   * resolve are bound and initialised, and all are started if all became ready.
   */
  function Reached(cfg: Options.Config, h: Host, p: Phase): seq<Role> {
    var rs := Slots(cfg);
    var c := ReadyCount(h, rs);
    if !SyncReady(h) then []
    else
      match p
      case Opened => Opening(h, rs)
      case Bound => Resolving(h, rs)
      case Initialised => Resolving(h, rs)
      case Started => if c == |rs| then rs else []
      case Stopped => []
      case Closed => []
  }

  /** A step only the signal handler takes: raising the stop flag, waiting out the grace period, stopping, closing, destroying. */
  predicate Handling(e: Event) {
    e.SetStop? || e.Sleep? || e.Stop? || e.Close? || e.DestroyCond? || e.DestroyMutex?
  }

  /** No step of the trace is one only the signal handler takes. */
  predicate Unhandled(t: seq<Event>) {
    forall k | 0 <= k < |t| :: !Handling(t[k])
  }

  lemma {:induction false} UnhandledAppend(a: seq<Event>, b: seq<Event>)
    requires Unhandled(a) && Unhandled(b)
    ensures Unhandled(a + b)
  {
    forall k | 0 <= k < |a + b| ensures !Handling((a + b)[k]) {
      if k >= |a| {
        assert (a + b)[k] == b[k - |a|];
      }
    }
  }

  // Lemmas about the pieces.

  /** Set-up concerns no plugin; it goes on quietly to the handler installation exactly when all of it succeeds, and otherwise exits with `ExitFailure`. */
  lemma {:induction false} SetupFacts(h: Host)
    ensures var s := Setup(h);
            && 0 < |s| && s[0] == ResetState
            && (forall k | 0 <= k < |s| :: !HasRole(s[k]))
            && Unhandled(s)
            && Settled(s)
            && (SyncReady(h) ==> Quiet(s) && !Exited(s))
            && (!SyncReady(h) ==> Ends(s, Exit(ExitFailure)))
  {
  }

  /**
   * Set-up takes its steps in order: the shared state is reset, then the mutex
   * is created, then the condition variable, then the SIGINT handler is
   * installed. The first of these three that fails is reported, naming that
   * step, right before the exit, and nothing after it is attempted; a set-up
   * that succeeds reports nothing.
   */
  lemma {:induction false} SetupReports(h: Host)
    ensures var s := Setup(h);
            && 3 <= |s| && s[0] == ResetState
            && (h.mutexOk <==> s[1] == MutexInit)
            && (h.mutexOk && h.condOk <==> s[2] == CondInit)
            && (SyncReady(h) <==> s[|s| - 1] == InstallHandler)
            && (SyncReady(h) <==> forall k | 0 <= k < |s| :: !s[k].Report?)
            && (!h.mutexOk ==> s == [ResetState, Report(MutexInitFailed), Exit(ExitFailure)])
            && (h.mutexOk && !h.condOk ==> s == [ResetState, MutexInit, Report(CondInitFailed), Exit(ExitFailure)])
            && (h.mutexOk && h.condOk && !h.handlerOk ==>
                  s == [ResetState, MutexInit, CondInit, Report(HandlerInstallFailed), Exit(ExitFailure)])
  {
    var s := Setup(h);
    if !SyncReady(h) {
      assert s[|s| - 2].Report?;
    }
  }

  /** Set-up has ended the process exactly when part of it failed, and then with `ExitFailure`. */
  lemma {:induction false} SetupEnds(h: Host)
    ensures 0 < |Setup(h)|
    ensures Exited(Setup(h)) <==> !SyncReady(h)
    ensures !SyncReady(h) ==> Ends(Setup(h), Exit(ExitFailure))
    ensures SyncReady(h) ==> Quiet(Setup(h))
  {
  }

  /** Set-up enters no phase for any slot. */
  lemma {:induction false} SetupUnbound(h: Host)
    ensures forall p :: Entering(Setup(h), p) == []
    ensures forall r :: Lifecycle(Setup(h), r) == []
  {
    SetupFacts(h);
    Unbound(Setup(h));
  }

  /** Starting the plugins concerns only the run phase and ends with the wait. */
  lemma {:induction false} LaunchFacts(rs: seq<Role>)
    ensures var g := Launch(rs);
            && Settled(g) && Ends(g, Pause)
            && Unhandled(g)
            && (forall k | 0 <= k < |g| :: !IsLoad(g[k]))
  {
    var g := Launch(rs);
    assert forall k | 0 <= k < |rs| :: g[k] == Run(rs[k]);
  }

  /** Start-up is set-up, then loading if set-up succeeded, then starting and waiting if every plugin became ready. */
  lemma {:induction false} BootCases(cfg: Options.Config, h: Host)
    ensures var s := Setup(h);
            var l := LoadAll(Slots(cfg), Specs(cfg), h);
            && (!SyncReady(h) ==> Boot(cfg, h) == s)
            && (SyncReady(h) && !AllReady(cfg, h) ==> Boot(cfg, h) == s + l)
            && (SyncReady(h) && AllReady(cfg, h) ==> Boot(cfg, h) == s + l + Launch(Slots(cfg)))
  {
    var s := Setup(h);
    var rs := Slots(cfg);
    var l := LoadAll(rs, Specs(cfg), h);
    SetupEnds(h);
    LoadAllExited(rs, Specs(cfg), h);
    if SyncReady(h) {
      EndsAppend(s, l, Pause);
    }
  }

  /** The set-up and loading that precede starting the plugins go on quietly when they all succeed. */
  lemma {:induction false} ReadyPrefix(cfg: Options.Config, h: Host)
    requires SyncReady(h) && AllReady(cfg, h)
    ensures Quiet(Setup(h) + LoadAll(Slots(cfg), Specs(cfg), h))
  {
    SetupFacts(h);
    LoadAllSettled(Slots(cfg), Specs(cfg), h);
    QuietAppend(Setup(h), LoadAll(Slots(cfg), Specs(cfg), h));
  }

  /** When set-up fails, start-up ends right there, exiting with `ExitFailure`. */
  lemma {:induction false} StartFailsSetup(cfg: Options.Config, h: Host)
    requires !SyncReady(h)
    ensures Settled(Prelude(cfg) + Boot(cfg, h))
    ensures Ends(Prelude(cfg) + Boot(cfg, h), Exit(ExitFailure))
  {
    BootCases(cfg, h);
    SetupFacts(h);
    assert Quiet(Prelude(cfg));
    SettledAppend(Prelude(cfg), Setup(h));
    EndsAppend(Prelude(cfg), Setup(h), Exit(ExitFailure));
  }

  /** When a plugin does not become ready, start-up ends with loading, exiting with that plugin's status. */
  lemma {:induction false} StartFailsLoading(cfg: Options.Config, h: Host)
    requires SyncReady(h) && !AllReady(cfg, h)
    ensures Settled(Prelude(cfg) + Boot(cfg, h))
    ensures Ends(Prelude(cfg) + Boot(cfg, h), Exit(ExitCode(LibraryFor(h, Slots(cfg)[ReadyCount(h, Slots(cfg))]))))
  {
    var rs := Slots(cfg);
    var pre := Prelude(cfg);
    var s := Setup(h);
    var l := LoadAll(rs, Specs(cfg), h);
    var e := Exit(ExitCode(LibraryFor(h, rs[ReadyCount(h, rs)])));
    assert Boot(cfg, h) == s + l by {
      BootCases(cfg, h);
    }
    assert Quiet(pre + s) by {
      SetupEnds(h);
      assert Quiet(pre);
      QuietAppend(pre, s);
    }
    assert Settled(l) && Ends(l, e) by {
      LoadAllSettled(rs, Specs(cfg), h);
    }
    QuietThen(pre + s, l, e);
    Assoc(pre, s, l);
  }

  /** When set-up and every plugin succeed, start-up starts them all and ends waiting. */
  lemma {:induction false} StartServes(cfg: Options.Config, h: Host)
    requires SyncReady(h) && AllReady(cfg, h)
    ensures Settled(Prelude(cfg) + Boot(cfg, h))
    ensures Ends(Prelude(cfg) + Boot(cfg, h), Pause)
  {
    var sl := Setup(h) + LoadAll(Slots(cfg), Specs(cfg), h);
    var g := Launch(Slots(cfg));
    assert Boot(cfg, h) == sl + g by {
      BootCases(cfg, h);
    }
    assert Settled(sl + g) && Ends(sl + g, Pause) by {
      LaunchFacts(Slots(cfg));
      ReadyPrefix(cfg, h);
      SettledAppend(sl, g);
      EndsAppend(sl, g, Pause);
    }
    assert Quiet(Prelude(cfg));
    SettledAppend(Prelude(cfg), Boot(cfg, h));
    EndsAppend(Prelude(cfg), Boot(cfg, h), Pause);
  }

  /** Loading the host's plugins enters every phase up to initialisation as the reference says, and never starts one. */
  lemma {:induction false} LoadingEntering(cfg: Options.Config, h: Host, p: Phase)
    requires SyncReady(h)
    ensures Entering(LoadAll(Slots(cfg), Specs(cfg), h), p) == if p == Started then [] else Reached(cfg, h, p)
  {
    var rs := Slots(cfg);
    if p == Opened {
      LoadAllOpened(rs, Specs(cfg), h);
    } else if p == Bound || p == Initialised {
      LoadAllInitialised(rs, Specs(cfg), h, p);
    } else {
      LoadAllNoLaterPhase(rs, Specs(cfg), h, p);
    }
  }

  /** Starting the plugins enters the run phase for each of them in order, and no other phase. */
  lemma {:induction false} LaunchEntering(rs: seq<Role>, p: Phase)
    ensures Entering(Launch(rs), p) == if p == Started then rs else []
  {
    ForEachEntering(rs, Starting, p);
    Single(Pause);
    EnteringAppend(ForEach(rs, Starting), [Pause], p);
  }

  /** When every plugin becomes ready, start-up enters each phase for exactly the slots the reference names. */
  lemma {:induction false} ServingEntering(cfg: Options.Config, h: Host, p: Phase)
    requires SyncReady(h) && AllReady(cfg, h)
    ensures Entering(Boot(cfg, h), p) == Reached(cfg, h, p)
  {
    var rs := Slots(cfg);
    var sl := Setup(h) + LoadAll(rs, Specs(cfg), h);
    assert Boot(cfg, h) == sl + Launch(rs) by {
      BootCases(cfg, h);
    }
    assert Entering(sl, p) == if p == Started then [] else Reached(cfg, h, p) by {
      SetupUnbound(h);
      LoadingEntering(cfg, h, p);
      EnteringAfterUnbound(Setup(h), LoadAll(rs, Specs(cfg), h), p);
    }
    LaunchEntering(rs, p);
    EnteringAppend(sl, Launch(rs), p);
    TakeAll(rs);
    NoSlots(Reached(cfg, h, p));
  }

  /** Start-up enters each phase for exactly the slots the reference names, in the host's order. */
  lemma {:induction false} BootEntering(cfg: Options.Config, h: Host, p: Phase)
    ensures Entering(Boot(cfg, h), p) == Reached(cfg, h, p)
  {
    var s := Setup(h);
    var l := LoadAll(Slots(cfg), Specs(cfg), h);
    if !SyncReady(h) {
      assert Boot(cfg, h) == s by {
        BootCases(cfg, h);
      }
      SetupUnbound(h);
    } else if AllReady(cfg, h) {
      ServingEntering(cfg, h, p);
    } else {
      assert Boot(cfg, h) == s + l by {
        BootCases(cfg, h);
      }
      assert Entering(s + l, p) == Entering(l, p) by {
        SetupUnbound(h);
        EnteringAfterUnbound(s, l, p);
      }
      LoadingEntering(cfg, h, p);
    }
  }

  /** Whatever phase, the slots entering it during start-up are a prefix of the host's order. */
  lemma {:induction false} ReachedIsPrefix(cfg: Options.Config, h: Host, p: Phase)
    ensures Reached(cfg, h, p) <= Slots(cfg)
  {
    var rs := Slots(cfg);
    var c := ReadyCount(h, rs);
    if c < |rs| {
      if Resolve(LibraryFor(h, rs[c])).Resolved? {
        TakeSnoc(rs, c);
      }
    } else {
      assert rs[..c] == rs;
    }
  }

  // Lemmas about `main`.

  /**
   * `main` never exits or waits before its last event, and it ends as the
   * reference outcome says: status 0 after help or version, `ExitFailure` when
   * set-up fails or a plugin or one of its entry points is missing, 0 when a
   * plugin's init refuses, and a wait once every plugin is started.
   */
  lemma {:induction false} MainOutcome(opts: seq<Options.Opt>, h: Host)
    requires Options.WithinCapacity(opts)
    ensures Settled(Main(opts, h))
    ensures Ends(Main(opts, h), ExpectedEnd(opts, h))
  {
    if Options.Parse(opts).Proceed? {
      var cfg := Options.Parse(opts).cfg;
      if !SyncReady(h) {
        StartFailsSetup(cfg, h);
      } else if AllReady(cfg, h) {
        StartServes(cfg, h);
      } else {
        StartFailsLoading(cfg, h);
      }
    }
  }

  /**
   * The process ends its start-up waiting for a signal exactly when it gets
   * through set-up and every plugin; it exits with `ExitFailure` exactly when
   * set-up fails or the first plugin that does not become ready is missing its
   * file or an entry point; help and version end `main` before anything else.
   */
  lemma {:induction false} MainStatus(opts: seq<Options.Opt>, h: Host)
    requires Options.WithinCapacity(opts)
    ensures Ends(Main(opts, h), Pause) <==> Serves(opts, h)
    ensures Ends(Main(opts, h), Exit(ExitFailure))
            <==> && Options.Parse(opts).Proceed?
                 && var rs := Slots(Options.Parse(opts).cfg);
                    || !SyncReady(h)
                    || (ReadyCount(h, rs) < |rs| && !Resolve(LibraryFor(h, rs[ReadyCount(h, rs)])).Resolved?)
    ensures Main(opts, h) == [ShowHelp, Exit(0)] <==> Options.FirstQuit(opts) == Some(Options.HelpShown)
    ensures Main(opts, h) == [ShowVersion, Exit(0)] <==> Options.FirstQuit(opts) == Some(Options.VersionShown)
  {
    MainOutcome(opts, h);
    Options.ParseMeaning(opts);
    if Options.Parse(opts).Proceed? {
      var cfg := Options.Parse(opts).cfg;
      BootCases(cfg, h);
      SetupFacts(h);
      assert Main(opts, h) == Prelude(cfg) + Boot(cfg, h);
      assert Main(opts, h) != [ShowHelp, Exit(0)] && Main(opts, h) != [ShowVersion, Exit(0)] by {
        if Prelude(cfg) == [] {
          assert Main(opts, h)[0] == ResetState;
        } else {
          assert Main(opts, h)[0] == Daemonize;
        }
      }
    }
  }

  /**
   * Over all of `main`, each phase is entered by the slots the reference names,
   * which always form a prefix of the host's order; help and version touch no plugin.
   */
  lemma {:induction false} MainEntering(opts: seq<Options.Opt>, h: Host, p: Phase)
    requires Options.WithinCapacity(opts)
    ensures Options.Parse(opts).Quit? ==> Entering(Main(opts, h), p) == []
    ensures Options.Parse(opts).Proceed? ==>
              && Entering(Main(opts, h), p) == Reached(Options.Parse(opts).cfg, h, p)
              && Entering(Main(opts, h), p) <= Slots(Options.Parse(opts).cfg)
  {
    var t := Main(opts, h);
    if Options.Parse(opts).Proceed? {
      var cfg := Options.Parse(opts).cfg;
      Unbound(Prelude(cfg));
      BootEntering(cfg, h, p);
      EnteringAppend(Prelude(cfg), Boot(cfg, h), p);
      ReachedIsPrefix(cfg, h, p);
    } else {
      Unbound(t);
    }
  }

  /** Starting distinct slots gives each of them one run step, and nothing to any other slot. */
  lemma {:induction false} LaunchLifecycle(rs: seq<Role>, r: Role)
    requires Distinct(rs)
    ensures Lifecycle(Launch(rs), r) == if r in rs then [Started] else []
  {
    ForEachLifecycle(rs, Starting, r);
    Single(Pause);
    LifecycleAppend(ForEach(rs, Starting), [Pause], r);
  }

  /** After a successful set-up, the set-up and loading steps give a slot exactly its loading phases. */
  lemma {:induction false} PrefixLifecycle(cfg: Options.Config, h: Host, r: Role)
    requires SyncReady(h)
    ensures var l := LoadAll(Slots(cfg), Specs(cfg), h);
            && Lifecycle(Setup(h) + l, r) == Lifecycle(l, r)
            && Lifecycle(l, r) <= [Opened, Bound, Initialised]
            && (r !in Slots(cfg) ==> Lifecycle(l, r) == [])
            && (AllReady(cfg, h) && r in Slots(cfg) ==> Lifecycle(l, r) == [Opened, Bound, Initialised])
  {
    var l := LoadAll(Slots(cfg), Specs(cfg), h);
    SetupFacts(h);
    Unbound(Setup(h));
    LifecycleAppend(Setup(h), l, r);
    OrderFacts(|Options.EffectiveOutputs(cfg)|);
    LoadAllLifecycle(Slots(cfg), Specs(cfg), h, r);
  }

  /** When every plugin becomes ready, set-up, loading and starting take every slot through all four start-up phases, and touch no other slot. */
  lemma {:induction false} ServingLifecycle(cfg: Options.Config, h: Host, r: Role)
    requires SyncReady(h) && AllReady(cfg, h)
    ensures var sl := Setup(h) + LoadAll(Slots(cfg), Specs(cfg), h);
            Lifecycle(sl + Launch(Slots(cfg)), r)
            == if r in Slots(cfg) then [Opened, Bound, Initialised, Started] else []
  {
    var rs := Slots(cfg);
    var sl := Setup(h) + LoadAll(rs, Specs(cfg), h);
    assert Lifecycle(sl, r) == if r in rs then [Opened, Bound, Initialised] else [] by {
      PrefixLifecycle(cfg, h, r);
    }
    assert Lifecycle(Launch(rs), r) == if r in rs then [Started] else [] by {
      OrderFacts(|Options.EffectiveOutputs(cfg)|);
      LaunchLifecycle(rs, r);
    }
    LifecycleAppend(sl, Launch(rs), r);
    PhaseJoins();
  }

  /**
   * During start-up each binding goes through opening, binding, initialising
   * and starting at most once each and in that order; only the host's slots
   * are touched, and only once set-up succeeded; and when every plugin becomes
   * ready, every slot goes through all four.
   */
  lemma {:induction false} BootLifecycle(cfg: Options.Config, h: Host, r: Role)
    ensures Lifecycle(Boot(cfg, h), r) <= [Opened, Bound, Initialised, Started]
    ensures Lifecycle(Boot(cfg, h), r) != [] ==> SyncReady(h) && r in Slots(cfg)
    ensures SyncReady(h) && AllReady(cfg, h) && r in Slots(cfg) ==>
              Lifecycle(Boot(cfg, h), r) == [Opened, Bound, Initialised, Started]
  {
    if !SyncReady(h) {
      BootCases(cfg, h);
      SetupFacts(h);
      Unbound(Setup(h));
    } else if AllReady(cfg, h) {
      assert Boot(cfg, h) == Setup(h) + LoadAll(Slots(cfg), Specs(cfg), h) + Launch(Slots(cfg)) by {
        BootCases(cfg, h);
      }
      ServingLifecycle(cfg, h, r);
    } else {
      assert Boot(cfg, h) == Setup(h) + LoadAll(Slots(cfg), Specs(cfg), h) by {
        BootCases(cfg, h);
      }
      PrefixLifecycle(cfg, h, r);
    }
  }

  /** Over all of `main`, the same holds: help and version touch no plugin, and forking into the background touches none either. */
  lemma {:induction false} MainLifecycle(opts: seq<Options.Opt>, h: Host, r: Role)
    requires Options.WithinCapacity(opts)
    ensures Lifecycle(Main(opts, h), r) <= [Opened, Bound, Initialised, Started]
    ensures Lifecycle(Main(opts, h), r) != [] ==>
              Options.Parse(opts).Proceed? && SyncReady(h) && r in Slots(Options.Parse(opts).cfg)
    ensures Serves(opts, h) && r in Slots(Options.Parse(opts).cfg) ==>
              Lifecycle(Main(opts, h), r) == [Opened, Bound, Initialised, Started]
  {
    if Options.Parse(opts).Proceed? {
      var cfg := Options.Parse(opts).cfg;
      assert Main(opts, h) == Prelude(cfg) + Boot(cfg, h);
      Unbound(Prelude(cfg));
      BootLifecycle(cfg, h, r);
      LifecycleAppend(Prelude(cfg), Boot(cfg, h), r);
    } else {
      var t := Main(opts, h);
      assert |t| == 2 && !HasRole(t[0]) && !HasRole(t[1]);
      Unbound(t);
    }
  }

  /** Set-up and loading, whatever their outcome, open each plugin only once the one before it is initialised. */
  lemma {:induction false} PrefixOrdering(cfg: Options.Config, h: Host)
    requires SyncReady(h)
    ensures InitsBeforeNextOpen(Setup(h) + LoadAll(Slots(cfg), Specs(cfg), h))
  {
    var s := Setup(h);
    SetupFacts(h);
    Unbound(s);
    NoOpenMeetsInitsBeforeNextOpen(s);
    LoadAllInitsBeforeNextOpen(Slots(cfg), Specs(cfg), h);
    InitsBeforeNextOpenAppend(s, LoadAll(Slots(cfg), Specs(cfg), h));
  }

  /** Set-up and loading start no plugin. */
  lemma {:induction false} PrefixNoRun(cfg: Options.Config, h: Host)
    ensures NoRun(Setup(h) + LoadAll(Slots(cfg), Specs(cfg), h))
  {
    SetupFacts(h);
    LoadAllNoRun(Slots(cfg), Specs(cfg), h);
    NoRunAppend(Setup(h), LoadAll(Slots(cfg), Specs(cfg), h));
  }

  /** When every plugin becomes ready, set-up and loading leave every opened plugin initialised. */
  lemma {:induction false} PrefixSettles(cfg: Options.Config, h: Host)
    requires SyncReady(h) && AllReady(cfg, h)
    ensures var sl := Setup(h) + LoadAll(Slots(cfg), Specs(cfg), h);
            Entering(sl, Initialised) == Entering(sl, Opened)
  {
    var s := Setup(h);
    var rs := Slots(cfg);
    var l := LoadAll(rs, Specs(cfg), h);
    SetupUnbound(h);
    EnteringAfterUnbound(s, l, Opened);
    EnteringAfterUnbound(s, l, Initialised);
    LoadAllOpened(rs, Specs(cfg), h);
    LoadAllInitialised(rs, Specs(cfg), h, Initialised);
    assert rs[..|rs|] == rs;
  }

  /** When every plugin becomes ready, start-up still opens each plugin only after the previous one is initialised, and loads nothing once a plugin runs. */
  lemma {:induction false} ServingOrdering(cfg: Options.Config, h: Host)
    requires SyncReady(h) && AllReady(cfg, h)
    ensures var t := Setup(h) + LoadAll(Slots(cfg), Specs(cfg), h) + Launch(Slots(cfg));
            InitsBeforeNextOpen(t) && NoLoadAfterRun(t)
  {
    var sl := Setup(h) + LoadAll(Slots(cfg), Specs(cfg), h);
    var g := Launch(Slots(cfg));
    PrefixOrdering(cfg, h);
    PrefixNoRun(cfg, h);
    PrefixSettles(cfg, h);
    LaunchFacts(Slots(cfg));
    NoOpenMeetsInitsBeforeNextOpen(g);
    InitsBeforeNextOpenAppend(sl, g);
    NoLoadAfterRunAppend(sl, g);
  }

  /** Start-up opens each plugin only once every plugin opened before it is initialised, and loads nothing once a plugin runs. */
  lemma {:induction false} BootOrdering(cfg: Options.Config, h: Host)
    ensures InitsBeforeNextOpen(Boot(cfg, h))
    ensures NoLoadAfterRun(Boot(cfg, h))
  {
    var s := Setup(h);
    var l := LoadAll(Slots(cfg), Specs(cfg), h);
    if !SyncReady(h) {
      assert Boot(cfg, h) == s by {
        BootCases(cfg, h);
      }
      SetupFacts(h);
      NoOpenMeetsInitsBeforeNextOpen(s);
      NoRunMeetsNoLoadAfterRun(s);
    } else if AllReady(cfg, h) {
      assert Boot(cfg, h) == s + l + Launch(Slots(cfg)) by {
        BootCases(cfg, h);
      }
      ServingOrdering(cfg, h);
    } else {
      assert Boot(cfg, h) == s + l by {
        BootCases(cfg, h);
      }
      PrefixOrdering(cfg, h);
      PrefixNoRun(cfg, h);
      NoRunMeetsNoLoadAfterRun(s + l);
    }
  }

  /**
   * Over all of `main`: a plugin is opened only once every plugin opened
   * before it has been initialised, and no plugin is loaded after one was
   * started; start-up is strictly load everything, then run everything.
   */
  lemma {:induction false} MainOrdering(opts: seq<Options.Opt>, h: Host)
    requires Options.WithinCapacity(opts)
    ensures InitsBeforeNextOpen(Main(opts, h))
    ensures NoLoadAfterRun(Main(opts, h))
  {
    var t := Main(opts, h);
    if Options.Parse(opts).Proceed? {
      var cfg := Options.Parse(opts).cfg;
      var pre := Prelude(cfg);
      BootOrdering(cfg, h);
      Unbound(pre);
      NoOpenMeetsInitsBeforeNextOpen(pre);
      InitsBeforeNextOpenAppend(pre, Boot(cfg, h));
      NoLoadAfterRunAppend(pre, Boot(cfg, h));
    } else {
      NoOpenMeetsInitsBeforeNextOpen(t);
      NoRunMeetsNoLoadAfterRun(t);
    }
  }

  /** Loading takes none of the signal handler's steps. */
  lemma {:induction false} LoadingUnhandled(cfg: Options.Config, h: Host)
    ensures Unhandled(LoadAll(Slots(cfg), Specs(cfg), h))
  {
    LoadAllSteps(Slots(cfg), Specs(cfg), h);
    LoadStepsUnhandled(LoadAll(Slots(cfg), Specs(cfg), h));
  }

  lemma {:induction false} LoadStepsUnhandled(t: seq<Event>)
    requires forall k | 0 <= k < |t| :: IsLoadStep(t[k])
    ensures Unhandled(t)
  {
  }

  /** Start-up takes none of the signal handler's steps. */
  lemma {:induction false} BootUnhandled(cfg: Options.Config, h: Host)
    ensures Unhandled(Boot(cfg, h))
  {
    var s := Setup(h);
    var l := LoadAll(Slots(cfg), Specs(cfg), h);
    SetupFacts(h);
    if !SyncReady(h) {
      BootCases(cfg, h);
    } else {
      LoadingUnhandled(cfg, h);
      UnhandledAppend(s, l);
      if AllReady(cfg, h) {
        assert Boot(cfg, h) == s + l + Launch(Slots(cfg)) by {
          BootCases(cfg, h);
        }
        LaunchFacts(Slots(cfg));
        UnhandledAppend(s + l, Launch(Slots(cfg)));
      } else {
        assert Boot(cfg, h) == s + l by {
          BootCases(cfg, h);
        }
      }
    }
  }

  /** Once set-up succeeds, start-up begins with the complete set-up: reset, mutex, condition variable, handler. */
  lemma {:induction false} BootBegins(cfg: Options.Config, h: Host)
    requires SyncReady(h)
    ensures 4 <= |Boot(cfg, h)| && Boot(cfg, h)[..4] == [ResetState, MutexInit, CondInit, InstallHandler]
  {
    var s := Setup(h);
    var l := LoadAll(Slots(cfg), Specs(cfg), h);
    assert s == [ResetState, MutexInit, CondInit, InstallHandler];
    assert s[..4] == s;
    PrefixKept(s, l, 4);
    if AllReady(cfg, h) {
      assert Boot(cfg, h) == s + l + Launch(Slots(cfg)) by {
        BootCases(cfg, h);
      }
      PrefixKept(s + l, Launch(Slots(cfg)), 4);
    } else {
      assert Boot(cfg, h) == s + l by {
        BootCases(cfg, h);
      }
    }
  }

  /** Behind a prefix that touches no plugin, a trace that starts with the complete set-up touches a plugin only after it. */
  lemma {:induction false} SetupGuards(pre: seq<Event>, b: seq<Event>)
    requires forall k | 0 <= k < |pre| :: !HasRole(pre[k])
    requires 4 <= |b| && b[..4] == [ResetState, MutexInit, CondInit, InstallHandler]
    ensures var t := pre + b;
            && t[|pre|..|pre| + 4] == b[..4]
            && forall k | 0 <= k < |t| && HasRole(t[k]) ::
                 MutexInit in t[..k] && CondInit in t[..k] && InstallHandler in t[..k]
  {
    var t := pre + b;
    var d := |pre|;
    assert forall k | 0 <= k < 4 :: t[d + k] == b[k];
    forall k | 0 <= k < |t| && HasRole(t[k])
      ensures MutexInit in t[..k] && CondInit in t[..k] && InstallHandler in t[..k]
    {
      if d + 4 <= k {
        assert t[..k][d + 1] == MutexInit;
        assert t[..k][d + 2] == CondInit;
        assert t[..k][d + 3] == InstallHandler;
      }
    }
  }

  /** `main` forks into the background first thing exactly when `-b` was given and no option ended parsing. */
  lemma {:induction false} MainForks(opts: seq<Options.Opt>, h: Host)
    requires Options.WithinCapacity(opts)
    ensures Main(opts, h)[0] == Daemonize <==> Options.FirstQuit(opts).None? && Options.Backgrounded(opts)
  {
    Options.ParseMeaning(opts);
    if Options.Parse(opts).Proceed? {
      var cfg := Options.Parse(opts).cfg;
      var b := Boot(cfg, h);
      assert 0 < |b| && b[0] == ResetState by {
        BootCases(cfg, h);
        SetupFacts(h);
        if SyncReady(h) {
          BootBegins(cfg, h);
          assert b[0] == b[..4][0];
        }
      }
      assert Main(opts, h) == Prelude(cfg) + b;
    }
  }

  /** Without the mutex and the condition variable, start-up touches no plugin at all. */
  lemma {:induction false} BootUntouched(cfg: Options.Config, h: Host)
    requires !SyncReady(h)
    ensures forall k | 0 <= k < |Boot(cfg, h)| :: !HasRole(Boot(cfg, h)[k])
  {
    BootCases(cfg, h);
    SetupFacts(h);
  }

  /** Two traces that touch no plugin make one that touches none. */
  lemma {:induction false} UntouchedAppend(a: seq<Event>, b: seq<Event>)
    requires forall k | 0 <= k < |a| :: !HasRole(a[k])
    requires forall k | 0 <= k < |b| :: !HasRole(b[k])
    ensures forall k | 0 <= k < |a + b| :: !HasRole((a + b)[k])
  {
    forall k | 0 <= k < |a + b| ensures !HasRole((a + b)[k]) {
      if |a| <= k {
        assert (a + b)[k] == b[k - |a|];
      }
    }
  }

  /** Start-up, behind the fork, touches a plugin only once set-up has completed. */
  lemma {:induction false} BootSetupFirst(cfg: Options.Config, h: Host)
    ensures var t := Prelude(cfg) + Boot(cfg, h);
            var d := |Prelude(cfg)|;
            && (SyncReady(h) ==> d + 4 <= |t| && t[d..d + 4] == [ResetState, MutexInit, CondInit, InstallHandler])
            && forall k | 0 <= k < |t| && HasRole(t[k]) ::
                 SyncReady(h) && MutexInit in t[..k] && CondInit in t[..k] && InstallHandler in t[..k]
  {
    var pre := Prelude(cfg);
    var b := Boot(cfg, h);
    assert forall k | 0 <= k < |pre| :: !HasRole(pre[k]);
    if SyncReady(h) {
      BootBegins(cfg, h);
      SetupGuards(pre, b);
    } else {
      BootUntouched(cfg, h);
      UntouchedAppend(pre, b);
    }
  }

  /** No plugin is touched before the mutex, the condition variable and the SIGINT handler are all in place. */
  lemma {:induction false} MainSetupFirst(opts: seq<Options.Opt>, h: Host)
    requires Options.WithinCapacity(opts)
    ensures Options.Parse(opts).Proceed? && SyncReady(h) ==>
              var d := |Prelude(Options.Parse(opts).cfg)|;
              d + 4 <= |Main(opts, h)| && Main(opts, h)[d..d + 4] == [ResetState, MutexInit, CondInit, InstallHandler]
    ensures forall k | 0 <= k < |Main(opts, h)| && HasRole(Main(opts, h)[k]) ::
              && Options.Parse(opts).Proceed? && SyncReady(h)
              && MutexInit in Main(opts, h)[..k]
              && CondInit in Main(opts, h)[..k]
              && InstallHandler in Main(opts, h)[..k]
  {
    match Options.Parse(opts)
    case Quit(_) =>
      assert forall k | 0 <= k < |Main(opts, h)| :: !HasRole(Main(opts, h)[k]);
    case Proceed(cfg) =>
      assert Main(opts, h) == Prelude(cfg) + Boot(cfg, h);
      BootSetupFirst(cfg, h);
  }

  /** `main` itself never takes a step that only the signal handler takes. */
  lemma {:induction false} MainUnhandled(opts: seq<Options.Opt>, h: Host)
    requires Options.WithinCapacity(opts)
    ensures Unhandled(Main(opts, h))
  {
    if Options.Parse(opts).Proceed? {
      var cfg := Options.Parse(opts).cfg;
      BootUnhandled(cfg, h);
      UnhandledAppend(Prelude(cfg), Boot(cfg, h));
    }
  }

  /**
   * During start-up, `dlopen` is called on the file each slot's spec names for
   * exactly the slots whose opening start-up reaches, and init with each spec's
   * parameter string for exactly the slots it initialises, in slot order.
   */
  lemma {:induction false} BootCalls(cfg: Options.Config, h: Host, k: CallKind)
    ensures var n := |Reached(cfg, h, CallPhase(k))|;
            && n <= |Slots(cfg)| && |Slots(cfg)| == |Specs(cfg)|
            && Calls(Boot(cfg, h), k) == CallsFor(Slots(cfg), Specs(cfg), k, n)
  {
    var rs := Slots(cfg);
    var specs := Specs(cfg);
    var s := Setup(h);
    var l := LoadAll(rs, specs, h);
    var reached := Reached(cfg, h, CallPhase(k));
    ReachedIsPrefix(cfg, h, CallPhase(k));
    if SyncReady(h) {
      assert Calls(s + l, k) == CallsFor(rs, specs, k, |reached|) by {
        ReachedCall(cfg, h, k);
        LoadAllCalls(rs, specs, h, k);
        SetupCalls(h, k);
        CallsAppend(s, l, k);
      }
      if AllReady(cfg, h) {
        var launch := Launch(rs);
        assert Boot(cfg, h) == (s + l) + launch by {
          BootCases(cfg, h);
        }
        LaunchCalls(rs, k);
        CallsAppend(s + l, launch, k);
      } else {
        assert Boot(cfg, h) == s + l by {
          BootCases(cfg, h);
        }
      }
    } else {
      assert Boot(cfg, h) == s by {
        BootCases(cfg, h);
      }
      SetupCalls(h, k);
    }
  }

  /** Once set-up succeeds, the slots that receive a call of kind `k` are those whose opening is attempted, or those initialised. */
  lemma {:induction false} ReachedCall(cfg: Options.Config, h: Host, k: CallKind)
    requires SyncReady(h)
    ensures Reached(cfg, h, CallPhase(k))
            == Reaching(h, Slots(cfg), k)
  {
    match k
    case OpenCall =>
      assert CallPhase(k) == Opened;
    case InitCall =>
      assert CallPhase(k) == Initialised;
  }

  /** Set-up calls neither `dlopen` nor init. */
  lemma {:induction false} SetupCalls(h: Host, k: CallKind)
    ensures Calls(Setup(h), k) == []
  {
    var s := Setup(h);
    assert forall j | 0 <= j < |s| :: !s[j].Open? && !s[j].Init? by {
      SetupFacts(h);
    }
    NoCalls(s, k);
  }

  /** Starting the plugins and waiting calls neither `dlopen` nor init. */
  lemma {:induction false} LaunchCalls(rs: seq<Role>, k: CallKind)
    ensures Calls(Launch(rs), k) == []
  {
    NoCalls(Launch(rs), k);
  }

  /**
   * Under options that do not quit, `main` calls `dlopen` on the files named by,
   * and init with the parameter strings of, the last `-i` spec (or the default
   * input) for the input and the `-o` specs in order (or the single default
   * output) for the outputs, for exactly the slots start-up reaches in that
   * phase. Options that quit make no such call.
   */
  lemma {:induction false} MainCalls(opts: seq<Options.Opt>, h: Host, k: CallKind)
    requires Options.WithinCapacity(opts)
    ensures Options.Parse(opts).Quit? ==> Calls(Main(opts, h), k) == []
    ensures Options.Parse(opts).Proceed? ==>
              var specs := [Options.LastInput(opts, Options.DefaultInput)]
                           + (if Options.OutputSpecs(opts) == [] then [Options.DefaultOutput] else Options.OutputSpecs(opts));
              var n := |Reached(Options.Parse(opts).cfg, h, CallPhase(k))|;
              && n <= |specs|
              && Calls(Main(opts, h), k) == CallsFor(Order(|specs| - 1), specs, k, n)
  {
    if Options.Parse(opts).Quit? {
      var t := Main(opts, h);
      assert |t| == 2 && !t[0].Open? && !t[0].Init? && t[1].Exit?;
      NoCalls(t, k);
    } else {
      ProceedCalls(opts, h, k);
    }
  }

  /** The calls of `main` under options that do not quit, as `MainCalls` states them. */
  lemma {:induction false} ProceedCalls(opts: seq<Options.Opt>, h: Host, k: CallKind)
    requires Options.WithinCapacity(opts) && Options.Parse(opts).Proceed?
    ensures var specs := [Options.LastInput(opts, Options.DefaultInput)]
                         + (if Options.OutputSpecs(opts) == [] then [Options.DefaultOutput] else Options.OutputSpecs(opts));
            var n := |Reached(Options.Parse(opts).cfg, h, CallPhase(k))|;
            && n <= |specs|
            && Calls(Main(opts, h), k) == CallsFor(Order(|specs| - 1), specs, k, n)
  {
    var cfg := Options.Parse(opts).cfg;
    var specs := [Options.LastInput(opts, Options.DefaultInput)]
                 + (if Options.OutputSpecs(opts) == [] then [Options.DefaultOutput] else Options.OutputSpecs(opts));
    var n := |Reached(cfg, h, CallPhase(k))|;
    assert Specs(cfg) == specs && Slots(cfg) == Order(|specs| - 1) by {
      Options.ParseMeaning(opts);
    }
    assert Calls(Main(opts, h), k) == Calls(Boot(cfg, h), k) by {
      MainBootCalls(opts, h, k);
    }
    assert n <= |Slots(cfg)| && Calls(Boot(cfg, h), k) == CallsFor(Slots(cfg), Specs(cfg), k, n) by {
      BootCalls(cfg, h, k);
    }
  }

  /** Once set-up succeeds, start-up makes exactly the calls that loading the plugins makes. */
  lemma {:induction false} BootLoadCalls(cfg: Options.Config, h: Host, k: CallKind)
    requires SyncReady(h)
    ensures Calls(Boot(cfg, h), k) == Calls(LoadAll(Slots(cfg), Specs(cfg), h), k)
  {
    BootCalls(cfg, h, k);
    ReachedCall(cfg, h, k);
    LoadAllCalls(Slots(cfg), Specs(cfg), h, k);
  }

  /** `main` makes the calls its start-up makes: forking into the background calls no plugin. */
  lemma {:induction false} MainBootCalls(opts: seq<Options.Opt>, h: Host, k: CallKind)
    requires Options.WithinCapacity(opts) && Options.Parse(opts).Proceed?
    ensures Calls(Main(opts, h), k) == Calls(Boot(Options.Parse(opts).cfg, h), k)
  {
    var cfg := Options.Parse(opts).cfg;
    NoCalls(Prelude(cfg), k);
    CallsAppend(Prelude(cfg), Boot(cfg, h), k);
  }

  /**
   * Without `-o`, `main` loads the default output plugin: once set-up succeeds
   * it calls `dlopen` first on the file of the last `-i` spec, the UVC plugin
   * when there is none, and, if the input becomes ready, then on
   * "output_http.so" for output 0, whose init, once its entry points resolve,
   * receives " --port 8080".
   */
  lemma {:induction false} DefaultOutputLoaded(opts: seq<Options.Opt>, h: Host)
    requires Options.WithinCapacity(opts) && Options.FirstQuit(opts).None?
    requires Options.OutputSpecs(opts) == [] && SyncReady(h)
    ensures var opens := Calls(Main(opts, h), OpenCall);
            && 0 < |opens|
            && opens[0] == Open(Input, PluginSpec.PluginName(Options.LastInput(opts, Options.DefaultInput)))
            && ((forall j | 0 <= j < |opts| :: !opts[j].Input?) ==> opens[0] == Open(Input, "input_uvc.so"))
            && (Ready(h.input) <==> |opens| == 2)
            && (Ready(h.input) ==> opens[1] == Open(Output(0), "output_http.so"))
    ensures var inits := Calls(Main(opts, h), InitCall);
            Ready(h.input) && Resolve(h.output(0)).Resolved? ==>
              |inits| == 2 && inits[1] == Init(Output(0), Some(" --port 8080"))
  {
    Options.ParseMeaning(opts);
    var cfg := Options.Parse(opts).cfg;
    assert Slots(cfg) == Order(1) && Specs(cfg) == [cfg.input, Options.DefaultOutput];
    MainBootCalls(opts, h, OpenCall);
    MainBootCalls(opts, h, InitCall);
    BootLoadCalls(cfg, h, OpenCall);
    BootLoadCalls(cfg, h, InitCall);
    LoadDefaultOutput(cfg.input, h);
    if forall j | 0 <= j < |opts| :: !opts[j].Input? {
      Options.LastInputMeaning(opts, Options.DefaultInput);
      DefaultSpecs();
    }
  }

  // Lemmas about the whole life of the process.

  /** The handler runs exactly when `main` reached its wait and an interrupt came; it is then given the host's output count. */
  lemma {:induction false} SessionShape(opts: seq<Options.Opt>, h: Host, interrupted: bool)
    requires Options.WithinCapacity(opts)
    ensures interrupted && Serves(opts, h) ==>
              && Ends(Main(opts, h), Pause)
              && Session(opts, h, interrupted)
                 == Main(opts, h) + Shutdown.SignalHandler(|Options.EffectiveOutputs(Options.Parse(opts).cfg)|)
    ensures !(interrupted && Serves(opts, h)) ==> Session(opts, h, interrupted) == Main(opts, h)
  {
    MainStatus(opts, h);
  }

  /**
   * The process exits at most once, and only as its last step: it waits for a
   * signal as its last step exactly when it got through start-up and no
   * interrupt came, and an interrupt then ends it with status 0; when start-up
   * did not get that far, the process is what `main` alone did.
   */
  lemma {:induction false} SessionEnd(opts: seq<Options.Opt>, h: Host, interrupted: bool)
    requires Options.WithinCapacity(opts)
    ensures ExitOnlyAtEnd(Session(opts, h, interrupted))
    ensures Ends(Session(opts, h, interrupted), Pause) <==> Serves(opts, h) && !interrupted
    ensures Serves(opts, h) && interrupted ==> Ends(Session(opts, h, interrupted), Exit(0))
    ensures Serves(opts, h) || Exited(Session(opts, h, interrupted))
  {
    var t := Main(opts, h);
    SessionShape(opts, h, interrupted);
    MainOutcome(opts, h);
    MainStatus(opts, h);
    if interrupted && Serves(opts, h) {
      var n := |Options.EffectiveOutputs(Options.Parse(opts).cfg)|;
      var u := Shutdown.SignalHandler(n);
      Shutdown.HandlerOrder(n);
      assert Running(t);
      ExitOnlyAtEndAppend(t, u);
      EndsAppend(t, u, Exit(0));
      EndsAppend(t, u, Pause);
    } else if !Serves(opts, h) {
      assert ExpectedEnd(opts, h).Exit?;
    }
  }

  /** Appending the handler adds stopping and closing to the life of each of the host's slots, and nothing to any other. */
  lemma {:induction false} HandlerAppendLifecycle(t: seq<Event>, n: nat, r: Role)
    ensures Lifecycle(t + Shutdown.SignalHandler(n), r)
            == Lifecycle(t, r) + if r in Order(n) then [Stopped, Closed] else []
  {
    Shutdown.HandlerLifecycle(n, r);
    OrderFacts(n);
    LifecycleAppend(t, Shutdown.SignalHandler(n), r);
  }

  /**
   * Behind a trace that takes none of the handler's steps, the stop flag is
   * raised and the condition variable and the mutex are destroyed exactly when
   * the handler runs; and if the trace created both, they are destroyed only
   * after that.
   */
  lemma {:induction false} HandledCleanup(t: seq<Event>, n: nat, handled: bool, d: nat)
    requires Unhandled(t)
    requires handled ==> d + 2 < |t| && t[d + 1] == MutexInit && t[d + 2] == CondInit
    ensures var s := if handled then t + Shutdown.SignalHandler(n) else t;
            && (SetStop in s <==> handled)
            && (DestroyCond in s <==> handled)
            && (DestroyMutex in s <==> handled)
            && forall j | 0 <= j < |s| && (s[j] == DestroyCond || s[j] == DestroyMutex) ::
                 MutexInit in s[..j] && CondInit in s[..j]
  {
    var s := if handled then t + Shutdown.SignalHandler(n) else t;
    if handled {
      var u := Shutdown.SignalHandler(n);
      var m := n + 1;
      Shutdown.HandlerAt(n, 0);
      Shutdown.HandlerAt(n, 2 * m + 3);
      Shutdown.HandlerAt(n, 2 * m + 4);
      assert s[|t|] == u[0];
      assert s[|t| + 2 * m + 3] == u[2 * m + 3];
      assert s[|t| + 2 * m + 4] == u[2 * m + 4];
      forall j | 0 <= j < |s| && (s[j] == DestroyCond || s[j] == DestroyMutex)
        ensures MutexInit in s[..j] && CondInit in s[..j]
      {
        if j < |t| {
          assert s[j] == t[j];
          assert Handling(t[j]);
        }
        assert s[..j][d + 1] == t[d + 1];
        assert s[..j][d + 2] == t[d + 2];
      }
    } else {
      assert forall j | 0 <= j < |s| :: !Handling(s[j]);
    }
  }

  /**
   * Behind a trace that takes a binding through a prefix of the start-up
   * phases, the handler, when it runs, adds stopping and closing for each of
   * the host's slots and nothing else.
   */
  lemma {:induction false} HandledLifecycle(t: seq<Event>, n: nat, handled: bool, r: Role)
    requires Lifecycle(t, r) <= [Opened, Bound, Initialised, Started]
    requires handled && r in Order(n) ==> Lifecycle(t, r) == [Opened, Bound, Initialised, Started]
    ensures var s := if handled then t + Shutdown.SignalHandler(n) else t;
            && Lifecycle(s, r) <= [Opened, Bound, Initialised, Started, Stopped, Closed]
            && (Lifecycle(s, r) != [] ==> Lifecycle(t, r) != [] || (handled && r in Order(n)))
            && (Lifecycle(t, r) == [Opened, Bound, Initialised, Started] ==>
                  Lifecycle(s, r) == [Opened, Bound, Initialised, Started]
                                     + if handled && r in Order(n) then [Stopped, Closed] else [])
  {
    var l := Lifecycle(t, r);
    var s := if handled then t + Shutdown.SignalHandler(n) else t;
    var extra: seq<Phase> := if handled && r in Order(n) then [Stopped, Closed] else [];
    assert Lifecycle(s, r) == l + extra by {
      if handled {
        HandlerAppendLifecycle(t, n, r);
      } else {
        NoPhases(l);
      }
    }
    NoPhases(l);
    if extra != [] {
      PhaseJoins();
    } else {
      StartupPrefixWidens(l);
    }
  }

  /**
   * Each binding goes through opening, binding, initialising, starting,
   * stopping and closing at most once each and in that order; only the host's
   * slots are touched, and only once set-up succeeded; and once start-up got
   * through every plugin, every slot goes through the four start-up phases,
   * and through stopping and closing as well if an interrupt came.
   */
  lemma {:induction false} SessionLifecycle(opts: seq<Options.Opt>, h: Host, interrupted: bool, r: Role)
    requires Options.WithinCapacity(opts)
    ensures Lifecycle(Session(opts, h, interrupted), r) <= [Opened, Bound, Initialised, Started, Stopped, Closed]
    ensures Lifecycle(Session(opts, h, interrupted), r) != [] ==>
              Options.Parse(opts).Proceed? && SyncReady(h) && r in Slots(Options.Parse(opts).cfg)
    ensures Serves(opts, h) && r in Slots(Options.Parse(opts).cfg) ==>
              Lifecycle(Session(opts, h, interrupted), r)
              == [Opened, Bound, Initialised, Started] + if interrupted then [Stopped, Closed] else []
  {
    var t := Main(opts, h);
    var handled := interrupted && Serves(opts, h);
    var n := Options.OutputCount(Options.Parse(opts));
    MainLifecycle(opts, h, r);
    assert Session(opts, h, interrupted) == if handled then t + Shutdown.SignalHandler(n) else t by {
      SessionShape(opts, h, interrupted);
    }
    HandledLifecycle(t, n, handled, r);
    if Options.Parse(opts).Proceed? {
      assert Slots(Options.Parse(opts).cfg) == Order(n);
    }
  }

  /** Once start-up gets through set-up, `main` has created the mutex and then the condition variable right after the fork. */
  lemma {:induction false} MainCreatesSync(opts: seq<Options.Opt>, h: Host)
    requires Options.WithinCapacity(opts)
    requires Options.Parse(opts).Proceed? && SyncReady(h)
    ensures var t := Main(opts, h);
            var d := |Prelude(Options.Parse(opts).cfg)|;
            d + 2 < |t| && t[d + 1] == MutexInit && t[d + 2] == CondInit
  {
    var t := Main(opts, h);
    var d := |Prelude(Options.Parse(opts).cfg)|;
    MainSetupFirst(opts, h);
    assert t[d..d + 4][1] == t[d + 1];
    assert t[d..d + 4][2] == t[d + 2];
  }

  /**
   * The stop flag is raised, and the condition variable and the mutex are
   * destroyed, exactly when start-up got through every plugin and an interrupt
   * came; and they are destroyed only after they were created.
   */
  lemma {:induction false} SessionCleanup(opts: seq<Options.Opt>, h: Host, interrupted: bool)
    requires Options.WithinCapacity(opts)
    ensures SetStop in Session(opts, h, interrupted) <==> Serves(opts, h) && interrupted
    ensures DestroyCond in Session(opts, h, interrupted) <==> Serves(opts, h) && interrupted
    ensures DestroyMutex in Session(opts, h, interrupted) <==> Serves(opts, h) && interrupted
    ensures var s := Session(opts, h, interrupted);
            forall j | 0 <= j < |s| && (s[j] == DestroyCond || s[j] == DestroyMutex) ::
              MutexInit in s[..j] && CondInit in s[..j]
  {
    var t := Main(opts, h);
    var handled := interrupted && Serves(opts, h);
    var n := Options.OutputCount(Options.Parse(opts));
    var d := if Options.Parse(opts).Proceed? then |Prelude(Options.Parse(opts).cfg)| else 0;
    MainUnhandled(opts, h);
    assert Session(opts, h, interrupted) == if handled then t + Shutdown.SignalHandler(n) else t by {
      SessionShape(opts, h, interrupted);
    }
    if handled {
      MainCreatesSync(opts, h);
    }
    HandledCleanup(t, n, handled, d);
  }

}
