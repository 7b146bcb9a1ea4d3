/**
 * Loading the plugins, the middle of the host's `main`: the input plugin and
 * then each output plugin is opened, its entry points are resolved and its init
 * entry point is called with the parameters of its spec, until one fails.
 *
 * Everything the operating system or a plugin decides is an input here: whether
 * the mutex, the condition variable and the handler can be set up, and for
 * every plugin slot whether its file can be loaded, which entry points it
 * exports and what its init entry point returns.
 */
module Startup {
  import opened Wrappers
  import opened Events
  import PluginSpec
  import Options

  /** `EXIT_FAILURE` of the C library. */
  const ExitFailure: int := 1

  /** The entry points of a plugin; `Cmd` is optional. */
  datatype Entry = InitEntry | StopEntry | RunEntry | CmdEntry

  /** The outcome of loading one plugin slot: `dlopen` succeeds, the entry points `dlsym` finds, the init return value. */
  datatype Library = Library(opens: bool, exports: set<Entry>, initStatus: int)

  /** The outcome of every call `main` makes into the operating system or a plugin. */
  datatype Host = Host(
    mutexOk: bool,
    condOk: bool,
    handlerOk: bool,
    input: Library,
    output: nat -> Library)

  function LibraryFor(h: Host, r: Role): Library {
    match r
    case Input => h.input
    case Output(i) => h.output(i)
  }

  /** The exported name of an entry point: "input_init", "output_stop", ... */
  function Symbol(r: Role, e: Entry): string {
    (if r.Input? then "input_" else "output_")
    + match e
      case InitEntry => "init"
      case StopEntry => "stop"
      case RunEntry => "run"
      case CmdEntry => "cmd"
  }

  /** The entry points every plugin must export, in the order the host looks them up. */
  const Mandatory: seq<Entry> := [InitEntry, StopEntry, RunEntry]

  datatype Resolution = NotFound | Missing(entry: Entry) | Resolved(hasCmd: bool)

  /** Opening a plugin and looking up its mandatory entry points in order, then the optional command entry point. */
  function Resolve(lib: Library): Resolution {
    if !lib.opens then NotFound
    else if InitEntry !in lib.exports then Missing(InitEntry)
    else if StopEntry !in lib.exports then Missing(StopEntry)
    else if RunEntry !in lib.exports then Missing(RunEntry)
    else Resolved(CmdEntry in lib.exports)
  }

  /**
   * Resolution fails with `NotFound` exactly when the file cannot be opened, and
   * otherwise names the first mandatory entry point the plugin lacks; it succeeds
   * exactly when all mandatory entry points are present, and records whether the
   * optional command entry point is, which never causes a failure.
   */
  lemma {:induction false} ResolveMeaning(lib: Library)
    ensures var res := Resolve(lib);
            && (res.NotFound? <==> !lib.opens)
            && (res.Missing? ==>
                  exists k | 0 <= k < |Mandatory| ::
                    && res.entry == Mandatory[k]
                    && res.entry !in lib.exports
                    && forall j | 0 <= j < k :: Mandatory[j] in lib.exports)
            && (res.Resolved? <==> lib.opens && forall k | 0 <= k < |Mandatory| :: Mandatory[k] in lib.exports)
            && (res.Resolved? ==> (res.hasCmd <==> CmdEntry in lib.exports))
            && res != Missing(CmdEntry)
  {
    var res := Resolve(lib);
    if res.Missing? {
      var k := if res.entry == InitEntry then 0 else if res.entry == StopEntry then 1 else 2;
      assert res.entry == Mandatory[k] && res.entry !in lib.exports;
      assert forall j | 0 <= j < k :: Mandatory[j] in lib.exports;
    }
  }

  /** Whether the plugin exports the optional command entry point never decides whether it becomes ready. */
  lemma CmdIsOptional(lib: Library)
    ensures Ready(lib) <==> Ready(lib.(exports := lib.exports - {CmdEntry}))
    ensures Ready(lib) <==> Ready(lib.(exports := lib.exports + {CmdEntry}))
  {
  }

  /** The slot loads, resolves its entry points and its init returns 0. */
  predicate Ready(lib: Library) {
    Resolve(lib).Resolved? && lib.initStatus == 0
  }

  /** The status the host exits with when a plugin with outcomes `lib` does not become ready. */
  function ExitCode(lib: Library): int {
    if Resolve(lib).Resolved? then 0 else ExitFailure
  }

  /** A step that loading one plugin can produce. */
  predicate IsLoadStep(e: Event) {
    IsLoad(e) || e.Report? || e.Exit?
  }

  /** Loading steps never wait. */
  lemma {:induction false} LoadStepsNoPause(t: seq<Event>)
    requires forall k | 0 <= k < |t| :: IsLoadStep(t[k])
    ensures forall k | 0 <= k < |t| :: t[k] != Pause
  {
  }

  /** What the host does with a plugin once its entry points resolve and its init has run: exit with 0 if init refused. */
  function InitOutcome(lib: Library): seq<Event> {
    if lib.initStatus != 0 then [Exit(0)] else []
  }

  /** What follows opening a plugin's file: resolve the entry points, then call init with the spec's parameter string. */
  function AfterOpen(r: Role, spec: string, lib: Library): seq<Event> {
    match Resolve(lib)
    case NotFound => [Report(PluginNotFound(r)), Exit(ExitFailure)]
    case Missing(e) => [Report(SymbolMissing(r, Symbol(r, e))), Exit(ExitFailure)]
    case Resolved(cmd) => [Bind(r, cmd)] + ([Init(r, PluginSpec.ParameterString(spec))] + InitOutcome(lib))
  }

  /**
   * Loading one plugin: attempt to open the file named by the spec (the `Open`
   * step is taken whether or not `dlopen` succeeds), resolve its entry points,
   * and call its init with the spec's parameter string. A missing file
   * or entry point exits with `ExitFailure`; a non-zero init result exits with 0.
   */
  function LoadPlugin(r: Role, spec: string, lib: Library): (t: seq<Event>)
    ensures 0 < |t| && t[0] == Open(r, PluginSpec.PluginName(spec))
    ensures Ready(lib) <==> !Exited(t)
  {
    [Open(r, PluginSpec.PluginName(spec))] + AfterOpen(r, spec, lib)
  }

  /**
   * Loading one plugin produces only loading steps and opens nothing after its
   * own file. Once its entry points resolve it is bound, with the optional
   * command entry point recorded, and initialised with the spec's parameter
   * string. If it does not become ready the process exits, as the last event,
   * with `ExitFailure` for a missing file or entry point and 0 for a refusing init.
   */
  lemma LoadPluginSteps(r: Role, spec: string, lib: Library)
    ensures var t := LoadPlugin(r, spec, lib);
            && (forall k | 0 <= k < |t| :: IsLoadStep(t[k]))
            && (forall k | 0 < k < |t| :: !t[k].Open?)
            && (forall k | 0 <= k < |t| - 1 :: !t[k].Exit?)
            && (Ready(lib) ==> !t[|t| - 1].Exit?)
            && (!Ready(lib) ==> Ends(t, Exit(ExitCode(lib))))
            && (Resolve(lib).Resolved? ==>
                  3 <= |t| && t[1] == Bind(r, CmdEntry in lib.exports)
                  && t[2] == Init(r, PluginSpec.ParameterString(spec)))
            && (Resolve(lib).NotFound? ==> 2 <= |t| && t[1] == Report(PluginNotFound(r)))
            && (Resolve(lib).Missing? ==> 2 <= |t| && t[1] == Report(SymbolMissing(r, Symbol(r, Resolve(lib).entry))))
  {
  }

  /**
   * A plugin file that cannot be opened is reported, by slot, right after the
   * open attempt, and the process exits with `ExitFailure`. So is the first
   * mandatory entry point an opened plugin lacks, by the symbol name the host
   * looked up; these are the only ways loading one plugin reports anything.
   */
  lemma {:induction false} LoadPluginReports(r: Role, spec: string, lib: Library)
    ensures var t := LoadPlugin(r, spec, lib);
            var open := Open(r, PluginSpec.PluginName(spec));
            && (!lib.opens <==> t == [open, Report(PluginNotFound(r)), Exit(ExitFailure)])
            && (forall k | 0 <= k < |Mandatory| ::
                  (&& lib.opens
                   && Mandatory[k] !in lib.exports
                   && (forall j | 0 <= j < k :: Mandatory[j] in lib.exports))
                  <==> t == [open, Report(SymbolMissing(r, Symbol(r, Mandatory[k]))), Exit(ExitFailure)])
            && ((exists k | 0 <= k < |t| :: t[k].Report?) <==> !Resolve(lib).Resolved?)
  {
    var t := LoadPlugin(r, spec, lib);
    var open := Open(r, PluginSpec.PluginName(spec));
    if Resolve(lib).Resolved? {
      assert t[1].Bind?;
    } else {
      assert t[1].Report?;
    }
    forall k | 0 <= k < |Mandatory|
      ensures (&& lib.opens
               && Mandatory[k] !in lib.exports
               && (forall j | 0 <= j < k :: Mandatory[j] in lib.exports))
              <==> t == [open, Report(SymbolMissing(r, Symbol(r, Mandatory[k]))), Exit(ExitFailure)]
    {
      match Resolve(lib)
      case NotFound =>
      case Resolved(_) =>
      case Missing(e) =>
        SymbolNames(r, Mandatory[k], e);
        assert t == [open, Report(SymbolMissing(r, Symbol(r, e))), Exit(ExitFailure)];
        assert k == 0 || k == 1 || k == 2;
        assert Mandatory[0] == InitEntry && Mandatory[1] == StopEntry;
    }
  }

  /** Different entry points are looked up under different symbol names. */
  lemma {:induction false} SymbolNames(r: Role, e: Entry, e': Entry)
    ensures Symbol(r, e) == Symbol(r, e') <==> e == e'
  {
    var prefix := if r.Input? then "input_" else "output_";
    if e != e' {
      assert Symbol(r, e)[|prefix|..] != Symbol(r, e')[|prefix|..];
    }
  }

  /** A plugin that does not become ready ends loading with its exit status. */
  lemma {:induction false} LoadPluginEnds(r: Role, spec: string, lib: Library)
    ensures !Ready(lib) ==> Ends(LoadPlugin(r, spec, lib), Exit(ExitCode(lib)))
  {
    LoadPluginSteps(r, spec, lib);
  }

  lemma {:induction false} InitOutcomeUnbound(lib: Library)
    ensures forall k | 0 <= k < |InitOutcome(lib)| :: !HasRole(InitOutcome(lib)[k])
  {
  }

  /** After opening is attempted, the binding is bound and then initialised when its entry points resolve; no other slot is touched. */
  lemma {:induction false} AfterOpenLifecycle(r: Role, spec: string, lib: Library, r': Role)
    ensures Lifecycle(AfterOpen(r, spec, lib), r')
            == if r' == r && Resolve(lib).Resolved? then [Bound] + [Initialised] else []
  {
    if Resolve(lib).Resolved? {
      InitOutcomeUnbound(lib);
      BindInitProjections(r, Resolve(lib).hasCmd, PluginSpec.ParameterString(spec), InitOutcome(lib));
    } else {
      Unbound(AfterOpen(r, spec, lib));
    }
  }

  /** After opening is attempted, the slot enters the bound and initialised phases when its entry points resolve, and no other. */
  lemma {:induction false} AfterOpenEntering(r: Role, spec: string, lib: Library, p: Phase)
    ensures Entering(AfterOpen(r, spec, lib), p)
            == if Resolve(lib).Resolved? && (p == Bound || p == Initialised) then [r] else []
  {
    if Resolve(lib).Resolved? {
      InitOutcomeUnbound(lib);
      BindInitProjections(r, Resolve(lib).hasCmd, PluginSpec.ParameterString(spec), InitOutcome(lib));
    } else {
      Unbound(AfterOpen(r, spec, lib));
    }
  }

  /** Loading one plugin touches only its own binding: opening it is attempted, and it is also bound and initialised when its entry points resolve. */
  lemma {:induction false} LoadPluginLifecycle(r: Role, spec: string, lib: Library, r': Role)
    ensures Lifecycle(LoadPlugin(r, spec, lib), r')
            == if r' != r then []
               else if Resolve(lib).Resolved? then [Opened, Bound, Initialised]
               else [Opened]
  {
    LifecycleCons(Open(r, PluginSpec.PluginName(spec)), AfterOpen(r, spec, lib), r');
    AfterOpenLifecycle(r, spec, lib, r');
    PhaseJoins();
    NoPhases([Opened]);
  }

  /** Loading one plugin enters the opened phase for it, and the bound and initialised phases when its entry points resolve. */
  lemma {:induction false} LoadPluginEntering(r: Role, spec: string, lib: Library, p: Phase)
    ensures Entering(LoadPlugin(r, spec, lib), p)
            == if p == Opened || (Resolve(lib).Resolved? && (p == Bound || p == Initialised)) then [r]
               else []
  {
    EnteringCons(Open(r, PluginSpec.PluginName(spec)), AfterOpen(r, spec, lib), p);
    AfterOpenEntering(r, spec, lib, p);
    OneSlot(r);
  }

  /** Loading is self-contained: it opens the slot's plugin before anything else and never opens another. */
  lemma {:induction false} LoadPluginInitsBeforeNextOpen(r: Role, spec: string, lib: Library)
    ensures InitsBeforeNextOpen(LoadPlugin(r, spec, lib))
  {
    var t := LoadPlugin(r, spec, lib);
    forall p | 0 <= p < |t| && t[p].Open?
      ensures Entering(t[..p], Initialised) == Entering(t[..p], Opened)
    {
      LoadPluginSteps(r, spec, lib);
      assert t[..p] == [];
    }
  }

  /** How many plugins at the front of `rs` become ready before the first that does not. */
  function ReadyCount(h: Host, rs: seq<Role>): (c: nat)
    ensures c <= |rs|
    ensures forall j | 0 <= j < c :: Ready(LibraryFor(h, rs[j]))
    ensures c < |rs| ==> !Ready(LibraryFor(h, rs[c]))
  {
    if |rs| == 0 || !Ready(LibraryFor(h, rs[0])) then 0
    else
      assert forall j | 0 < j < |rs| :: rs[j] == rs[1..][j - 1];
      1 + ReadyCount(h, rs[1..])
  }

  /** Loading the plugins of `rs`, with the specs `specs`, one after another until one fails. */
  function LoadAll(rs: seq<Role>, specs: seq<string>, h: Host): seq<Event>
    requires |rs| == |specs|
    decreases |rs|
  {
    if |rs| == 0 then []
    else Then(LoadPlugin(rs[0], specs[0], LibraryFor(h, rs[0])), LoadAll(rs[1..], specs[1..], h))
  }

  lemma {:induction false} LoadStepsAppend(a: seq<Event>, b: seq<Event>)
    requires forall k | 0 <= k < |a| :: IsLoadStep(a[k])
    requires forall k | 0 <= k < |b| :: IsLoadStep(b[k])
    ensures forall k | 0 <= k < |a + b| :: IsLoadStep((a + b)[k])
  {
    forall k | 0 <= k < |a + b| ensures IsLoadStep((a + b)[k]) {
      if |a| <= k {
        assert (a + b)[k] == b[k - |a|];
      }
    }
  }

  /** Loading a list of plugins produces nothing but loading steps. */
  lemma {:induction false} LoadAllSteps(rs: seq<Role>, specs: seq<string>, h: Host)
    requires |rs| == |specs|
    ensures forall k | 0 <= k < |LoadAll(rs, specs, h)| :: IsLoadStep(LoadAll(rs, specs, h)[k])
    decreases |rs|
  {
    if |rs| > 0 {
      var block := LoadPlugin(rs[0], specs[0], LibraryFor(h, rs[0]));
      LoadPluginSteps(rs[0], specs[0], LibraryFor(h, rs[0]));
      if Ready(LibraryFor(h, rs[0])) {
        var rest := LoadAll(rs[1..], specs[1..], h);
        LoadAllSteps(rs[1..], specs[1..], h);
        LoadStepsAppend(block, rest);
      }
    }
  }

  /** Loading a list of plugins starts none of them. */
  lemma {:induction false} LoadAllNoRun(rs: seq<Role>, specs: seq<string>, h: Host)
    requires |rs| == |specs|
    ensures NoRun(LoadAll(rs, specs, h))
  {
    LoadAllSteps(rs, specs, h);
  }

  /** Loading a list of plugins is loading the first one, then, if it became ready, loading the rest. */
  lemma LoadAllUnfold(rs: seq<Role>, specs: seq<string>, h: Host)
    requires |rs| == |specs| && 0 < |rs|
    ensures var block := LoadPlugin(rs[0], specs[0], LibraryFor(h, rs[0]));
            LoadAll(rs, specs, h)
            == if Ready(LibraryFor(h, rs[0])) then block + LoadAll(rs[1..], specs[1..], h) else block
    ensures ReadyCount(h, rs) == if Ready(LibraryFor(h, rs[0])) then 1 + ReadyCount(h, rs[1..]) else 0
  {
  }

  /**
   * Loading a list of plugins exits exactly when some plugin does not become
   * ready, and then as its very last event.
   */
  lemma {:induction false} LoadAllExit(rs: seq<Role>, specs: seq<string>, h: Host)
    requires |rs| == |specs|
    ensures ReadyCount(h, rs) == |rs| <==> Running(LoadAll(rs, specs, h))
    ensures ExitOnlyAtEnd(LoadAll(rs, specs, h))
    decreases |rs|
  {
    if |rs| > 0 {
      LoadAllUnfold(rs, specs, h);
      var lib := LibraryFor(h, rs[0]);
      var block := LoadPlugin(rs[0], specs[0], lib);
      LoadPluginSteps(rs[0], specs[0], lib);
      if Ready(lib) {
        var rest := LoadAll(rs[1..], specs[1..], h);
        assert LoadAll(rs, specs, h) == block + rest;
        assert Running(block);
        LoadAllExit(rs[1..], specs[1..], h);
        RunningAppend(block, rest);
        ExitOnlyAtEndAppend(block, rest);
        assert ReadyCount(h, rs) == 1 + ReadyCount(h, rs[1..]);
      } else {
        assert LoadAll(rs, specs, h) == block;
        assert ReadyCount(h, rs) == 0;
        assert block[|block| - 1].Exit?;
      }
    }
  }

  /** Past a ready first plugin, the first plugin that is not ready is found in the rest of the list. */
  lemma {:induction false} ReadyIndexCons(h: Host, rs: seq<Role>)
    requires 0 < |rs| && Ready(LibraryFor(h, rs[0])) && ReadyCount(h, rs) < |rs|
    ensures ReadyCount(h, rs[1..]) < |rs[1..]|
    ensures rs[ReadyCount(h, rs)] == rs[1..][ReadyCount(h, rs[1..])]
  {
  }

  /** Loading a non-empty list of plugins produces steps, and has exited at the end exactly when some plugin did not become ready. */
  lemma {:induction false} LoadAllExited(rs: seq<Role>, specs: seq<string>, h: Host)
    requires |rs| == |specs| && 0 < |rs|
    ensures 0 < |LoadAll(rs, specs, h)|
    ensures Exited(LoadAll(rs, specs, h)) <==> ReadyCount(h, rs) < |rs|
  {
    LoadAllUnfold(rs, specs, h);
    LoadAllExit(rs, specs, h);
    ExitedUnlessRunning(LoadAll(rs, specs, h));
  }

  /** When loading a list of plugins exits, it does so with the status of the first plugin that did not become ready. */
  lemma {:induction false} LoadAllExitCode(rs: seq<Role>, specs: seq<string>, h: Host)
    requires |rs| == |specs|
    requires ReadyCount(h, rs) < |rs|
    ensures var r := rs[ReadyCount(h, rs)];
            Ends(LoadAll(rs, specs, h), Exit(ExitCode(LibraryFor(h, r))))
    decreases |rs|
  {
    LoadAllUnfold(rs, specs, h);
    var lib := LibraryFor(h, rs[0]);
    if Ready(lib) {
      var c' := ReadyCount(h, rs[1..]);
      ReadyIndexCons(h, rs);
      LoadAllExitCode(rs[1..], specs[1..], h);
      EndsAppend(LoadPlugin(rs[0], specs[0], lib), LoadAll(rs[1..], specs[1..], h), Exit(ExitCode(LibraryFor(h, rs[1..][c']))));
    } else {
      LoadPluginEnds(rs[0], specs[0], lib);
    }
  }

  /** The plugins of `rs` that loading attempts to open: the first `ReadyCount`, and the one after them if there is one, even when its file is not found. */
  function Opening(h: Host, rs: seq<Role>): seq<Role> {
    var c := ReadyCount(h, rs);
    rs[..if c < |rs| then c + 1 else c]
  }

  /** A ready first plugin adds itself in front of the plugins the rest of the list opens. */
  lemma {:induction false} OpeningCons(h: Host, rs: seq<Role>)
    requires 0 < |rs| && Ready(LibraryFor(h, rs[0]))
    ensures Opening(h, rs) == [rs[0]] + Opening(h, rs[1..])
  {
    var c' := ReadyCount(h, rs[1..]);
    assert ReadyCount(h, rs) == c' + 1;
    TakeCons(rs, if c' < |rs| - 1 then c' + 1 else c');
  }

  /** A first plugin that does not become ready is the only one opened. */
  lemma {:induction false} OpeningStops(h: Host, rs: seq<Role>)
    requires 0 < |rs| && !Ready(LibraryFor(h, rs[0]))
    ensures Opening(h, rs) == [rs[0]]
  {
    assert ReadyCount(h, rs) == 0;
  }

  /**
   * Loading a list of plugins attempts to open them in list order, each only
   * after every earlier one became ready: the first `ReadyCount` plugins, and
   * the next one if there is one, whether or not its file is then found.
   */
  lemma {:induction false} LoadAllOpened(rs: seq<Role>, specs: seq<string>, h: Host)
    requires |rs| == |specs|
    ensures Entering(LoadAll(rs, specs, h), Opened) == Opening(h, rs)
    decreases |rs|
  {
    if |rs| > 0 {
      LoadAllUnfold(rs, specs, h);
      var lib := LibraryFor(h, rs[0]);
      var block := LoadPlugin(rs[0], specs[0], lib);
      LoadPluginEntering(rs[0], specs[0], lib, Opened);
      if Ready(lib) {
        var rest := LoadAll(rs[1..], specs[1..], h);
        LoadAllOpened(rs[1..], specs[1..], h);
        EnteringAppend(block, rest, Opened);
        OpeningCons(h, rs);
      } else {
        OpeningStops(h, rs);
      }
    }
  }

  /** The plugins of `rs` that loading binds and initialises: the first `ReadyCount`, and the next if its entry points resolved. */
  function Resolving(h: Host, rs: seq<Role>): seq<Role> {
    var c := ReadyCount(h, rs);
    rs[..c] + if c < |rs| && Resolve(LibraryFor(h, rs[c])).Resolved? then [rs[c]] else []
  }

  /** A ready first plugin adds itself in front of the plugins the rest of the list binds and initialises. */
  lemma {:induction false} ResolvingCons(h: Host, rs: seq<Role>)
    requires 0 < |rs| && Ready(LibraryFor(h, rs[0]))
    ensures Resolving(h, rs) == [rs[0]] + Resolving(h, rs[1..])
  {
    var c' := ReadyCount(h, rs[1..]);
    assert ReadyCount(h, rs) == c' + 1;
    TakeCons(rs, c');
    if c' < |rs| - 1 {
      assert rs[c' + 1] == rs[1..][c'];
    }
  }

  /**
   * Loading a list of plugins binds and initialises, in list order, all of the
   * first `ReadyCount` plugins, and the one after them if its entry points
   * resolved; `p` is either of those two phases.
   */
  lemma {:induction false} LoadAllInitialised(rs: seq<Role>, specs: seq<string>, h: Host, p: Phase)
    requires |rs| == |specs|
    requires p == Bound || p == Initialised
    ensures Entering(LoadAll(rs, specs, h), p) == Resolving(h, rs)
    decreases |rs|
  {
    if |rs| > 0 {
      LoadAllUnfold(rs, specs, h);
      var lib := LibraryFor(h, rs[0]);
      var block := LoadPlugin(rs[0], specs[0], lib);
      LoadPluginEntering(rs[0], specs[0], lib, p);
      if Ready(lib) {
        var rest := LoadAll(rs[1..], specs[1..], h);
        assert LoadAll(rs, specs, h) == block + rest;
        LoadAllInitialised(rs[1..], specs[1..], h, p);
        EnteringAppend(block, rest, p);
        ResolvingCons(h, rs);
      } else {
        assert LoadAll(rs, specs, h) == block;
        assert ReadyCount(h, rs) == 0;
        assert rs[..0] == [];
      }
    }
  }

  /** The call of kind `k` a plugin loaded into slot `r` from `spec` receives: `dlopen` on the file its spec names, or init with its spec's parameter string. */
  function CallFor(r: Role, spec: string, k: CallKind): (e: Event)
    ensures IsCall(e, k) && HasRole(e) && e.role == r
  {
    match k
    case OpenCall => Open(r, PluginSpec.PluginName(spec))
    case InitCall => Init(r, PluginSpec.ParameterString(spec))
  }

  /** The calls of kind `k` that the first `n` plugins of `rs` receive when loaded from the matching `specs`. */
  function CallsFor(rs: seq<Role>, specs: seq<string>, k: CallKind, n: nat): (t: seq<Event>)
    requires n <= |rs| && n <= |specs|
    ensures |t| == n
    ensures forall j | 0 <= j < n :: t[j] == CallFor(rs[j], specs[j], k)
    decreases n
  {
    if n == 0 then []
    else
      var t' := CallsFor(rs[1..], specs[1..], k, n - 1);
      assert forall j | 0 < j < n :: rs[j] == rs[1..][j - 1] && specs[j] == specs[1..][j - 1];
      [CallFor(rs[0], specs[0], k)] + t'
  }

  /**
   * Loading one plugin calls `dlopen` once, on the file its spec names, and
   * calls init once, with its spec's parameter string, exactly when its entry
   * points resolve.
   */
  lemma {:induction false} LoadPluginCalls(r: Role, spec: string, lib: Library, k: CallKind)
    ensures Calls(LoadPlugin(r, spec, lib), k)
            == if k == OpenCall || Resolve(lib).Resolved? then [CallFor(r, spec, k)] else []
  {
    var rest := AfterOpen(r, spec, lib);
    CallsCons(Open(r, PluginSpec.PluginName(spec)), rest, k);
    match Resolve(lib)
    case Resolved(cmd) =>
      CallsCons(Bind(r, cmd), [Init(r, PluginSpec.ParameterString(spec))] + InitOutcome(lib), k);
      CallsCons(Init(r, PluginSpec.ParameterString(spec)), InitOutcome(lib), k);
      NoCalls(InitOutcome(lib), k);
    case _ =>
      NoCalls(rest, k);
  }

  /** The plugins of `rs` that receive a call of kind `k`: those whose opening is attempted, or those initialised. */
  function Reaching(h: Host, rs: seq<Role>, k: CallKind): (reached: seq<Role>)
    ensures |reached| <= |rs|
  {
    match k
    case OpenCall => Opening(h, rs)
    case InitCall => Resolving(h, rs)
  }

  /** A ready first plugin receives its call and hands on to the rest of the list. */
  lemma {:induction false} LoadAllCallsCons(rs: seq<Role>, specs: seq<string>, h: Host, k: CallKind)
    requires |rs| == |specs| && 0 < |rs| && Ready(LibraryFor(h, rs[0]))
    ensures Calls(LoadAll(rs, specs, h), k)
            == [CallFor(rs[0], specs[0], k)] + Calls(LoadAll(rs[1..], specs[1..], h), k)
    ensures |Reaching(h, rs, k)| == |Reaching(h, rs[1..], k)| + 1
  {
    var lib := LibraryFor(h, rs[0]);
    var block := LoadPlugin(rs[0], specs[0], lib);
    var rest := LoadAll(rs[1..], specs[1..], h);
    assert LoadAll(rs, specs, h) == block + rest by {
      LoadAllUnfold(rs, specs, h);
    }
    LoadPluginCalls(rs[0], specs[0], lib, k);
    CallsAppend(block, rest, k);
    match k
    case OpenCall =>
      OpeningCons(h, rs);
    case InitCall =>
      ResolvingCons(h, rs);
  }

  /** A first plugin that does not become ready receives its open call, and its init call once its entry points resolve, and ends loading. */
  lemma {:induction false} LoadAllCallsStop(rs: seq<Role>, specs: seq<string>, h: Host, k: CallKind)
    requires |rs| == |specs| && 0 < |rs| && !Ready(LibraryFor(h, rs[0]))
    ensures Calls(LoadAll(rs, specs, h), k) == CallsFor(rs, specs, k, |Reaching(h, rs, k)|)
  {
    var lib := LibraryFor(h, rs[0]);
    var called := k == OpenCall || Resolve(lib).Resolved?;
    assert LoadAll(rs, specs, h) == LoadPlugin(rs[0], specs[0], lib) by {
      LoadAllUnfold(rs, specs, h);
    }
    LoadPluginCalls(rs[0], specs[0], lib, k);
    assert |Reaching(h, rs, k)| == if called then 1 else 0 by {
      OpeningStops(h, rs);
      assert ReadyCount(h, rs) == 0;
      assert rs[..0] == [];
    }
  }

  /**
   * Loading a list of plugins calls `dlopen` on the file each spec names, in
   * list order, for exactly the plugins whose opening is attempted, and calls
   * init with each spec's parameter string for exactly the plugins that are
   * initialised: the `j`-th call goes to the `j`-th slot with the `j`-th spec.
   */
  lemma {:induction false} LoadAllCalls(rs: seq<Role>, specs: seq<string>, h: Host, k: CallKind)
    requires |rs| == |specs|
    ensures Calls(LoadAll(rs, specs, h), k) == CallsFor(rs, specs, k, |Reaching(h, rs, k)|)
    decreases |rs|
  {
    if |rs| > 0 {
      if Ready(LibraryFor(h, rs[0])) {
        var n' := |Reaching(h, rs[1..], k)|;
        LoadAllCallsCons(rs, specs, h, k);
        LoadAllCalls(rs[1..], specs[1..], h, k);
        assert CallsFor(rs, specs, k, n' + 1) == [CallFor(rs[0], specs[0], k)] + CallsFor(rs[1..], specs[1..], k, n');
      } else {
        LoadAllCallsStop(rs, specs, h, k);
      }
    }
  }

  /** Of two plugins, the second is opened exactly when the first becomes ready, and then initialised once its entry points resolve. */
  lemma {:induction false} TwoPlugins(h: Host, rs: seq<Role>)
    requires |rs| == 2
    ensures |Opening(h, rs)| == if Ready(LibraryFor(h, rs[0])) then 2 else 1
    ensures Ready(LibraryFor(h, rs[0])) && Resolve(LibraryFor(h, rs[1])).Resolved? ==> |Resolving(h, rs)| == 2
  {
    var c := ReadyCount(h, rs);
    if Ready(LibraryFor(h, rs[0])) {
      assert 1 <= c;
    } else {
      assert c == 0;
    }
  }

  /** The default specs name the UVC input plugin and the HTTP output plugin, each followed by its default parameters. */
  lemma {:induction false} DefaultSpecs()
    ensures PluginSpec.PluginName(Options.DefaultInput) == "input_uvc.so"
    ensures PluginSpec.ParameterString(Options.DefaultInput) == Some(" --resolution 640x480" + " --fps 5" + " --device /dev/video0")
    ensures PluginSpec.PluginName(Options.DefaultOutput) == "output_http.so"
    ensures PluginSpec.ParameterString(Options.DefaultOutput) == Some(" --port 8080")
  {
    var params := " --resolution 640x480" + " --fps 5" + " --device /dev/video0";
    PluginSpec.JoinSplit("input_uvc.so", Some(params));
    PluginSpec.JoinSplit("output_http.so", Some(" --port 8080"));
  }

  /**
   * Loading an input and the default output spec: `dlopen` is called first on
   * the input spec's file and, if the input becomes ready, then on
   * "output_http.so" for output 0, whose init, once its entry points resolve,
   * receives " --port 8080".
   */
  lemma {:induction false} LoadDefaultOutput(input: string, h: Host)
    ensures var opens := Calls(LoadAll(Order(1), [input, Options.DefaultOutput], h), OpenCall);
            && 0 < |opens|
            && opens[0] == Open(Input, PluginSpec.PluginName(input))
            && (Ready(h.input) <==> |opens| == 2)
            && (Ready(h.input) ==> opens[1] == Open(Output(0), "output_http.so"))
    ensures var inits := Calls(LoadAll(Order(1), [input, Options.DefaultOutput], h), InitCall);
            Ready(h.input) && Resolve(h.output(0)).Resolved? ==>
              |inits| == 2 && inits[1] == Init(Output(0), Some(" --port 8080"))
  {
    var rs := Order(1);
    var specs := [input, Options.DefaultOutput];
    assert rs[0] == Input && rs[1] == Output(0);
    DefaultSpecs();
    TwoPlugins(h, rs);
    LoadAllCalls(rs, specs, h, OpenCall);
    LoadAllCalls(rs, specs, h, InitCall);
  }

  /** Loading never starts, stops or closes a plugin. */
  lemma {:induction false} LoadAllNoLaterPhase(rs: seq<Role>, specs: seq<string>, h: Host, p: Phase)
    requires |rs| == |specs|
    requires p == Started || p == Stopped || p == Closed
    ensures Entering(LoadAll(rs, specs, h), p) == []
    decreases |rs|
  {
    if |rs| > 0 {
      var block := LoadPlugin(rs[0], specs[0], LibraryFor(h, rs[0]));
      LoadPluginEntering(rs[0], specs[0], LibraryFor(h, rs[0]), p);
      if Ready(LibraryFor(h, rs[0])) {
        LoadAllNoLaterPhase(rs[1..], specs[1..], h, p);
        EnteringAppend(block, LoadAll(rs[1..], specs[1..], h), p);
      }
    }
  }

  /** While loading a list of plugins, each plugin is opened only once all plugins opened before it were initialised. */
  lemma {:induction false} LoadAllInitsBeforeNextOpen(rs: seq<Role>, specs: seq<string>, h: Host)
    requires |rs| == |specs|
    ensures InitsBeforeNextOpen(LoadAll(rs, specs, h))
    decreases |rs|
  {
    if |rs| > 0 {
      var block := LoadPlugin(rs[0], specs[0], LibraryFor(h, rs[0]));
      LoadPluginInitsBeforeNextOpen(rs[0], specs[0], LibraryFor(h, rs[0]));
      if Ready(LibraryFor(h, rs[0])) {
        LoadAllInitsBeforeNextOpen(rs[1..], specs[1..], h);
        LoadPluginEntering(rs[0], specs[0], LibraryFor(h, rs[0]), Opened);
        LoadPluginEntering(rs[0], specs[0], LibraryFor(h, rs[0]), Initialised);
        InitsBeforeNextOpenAppend(block, LoadAll(rs[1..], specs[1..], h));
      }
    }
  }

  /**
   * Over a list of distinct slots, each binding is opened, bound and initialised
   * at most once and in that order; slots outside the list are never touched;
   * and when every plugin becomes ready, each listed binding completes all three.
   */
  lemma {:induction false} LoadAllLifecycle(rs: seq<Role>, specs: seq<string>, h: Host, r: Role)
    requires |rs| == |specs|
    requires Distinct(rs)
    ensures Lifecycle(LoadAll(rs, specs, h), r) <= [Opened, Bound, Initialised]
    ensures r !in rs ==> Lifecycle(LoadAll(rs, specs, h), r) == []
    ensures ReadyCount(h, rs) == |rs| && r in rs ==> Lifecycle(LoadAll(rs, specs, h), r) == [Opened, Bound, Initialised]
    decreases |rs|
  {
    if |rs| > 0 {
      var block := LoadPlugin(rs[0], specs[0], LibraryFor(h, rs[0]));
      LoadPluginLifecycle(rs[0], specs[0], LibraryFor(h, rs[0]), r);
      DistinctTail(rs);
      if Ready(LibraryFor(h, rs[0])) {
        var rest := LoadAll(rs[1..], specs[1..], h);
        LoadAllLifecycle(rs[1..], specs[1..], h, r);
        LifecycleAppend(block, rest, r);
      }
    }
  }


  /**
   * Loading a list of plugins ends the process or waits only as its last
   * event; it goes on quietly exactly when every plugin becomes ready, and
   * otherwise ends by exiting with the status of the first one that did not.
   */
  lemma {:induction false} LoadAllSettled(rs: seq<Role>, specs: seq<string>, h: Host)
    requires |rs| == |specs| && 0 < |rs|
    ensures var t := LoadAll(rs, specs, h);
            && 0 < |t|
            && Settled(t)
            && (ReadyCount(h, rs) == |rs| <==> Quiet(t))
            && (ReadyCount(h, rs) < |rs| ==> Ends(t, Exit(ExitCode(LibraryFor(h, rs[ReadyCount(h, rs)])))))
  {
    var t := LoadAll(rs, specs, h);
    LoadAllUnfold(rs, specs, h);
    LoadAllSteps(rs, specs, h);
    LoadStepsNoPause(t);
    LoadAllExit(rs, specs, h);
    SettledWithoutPause(t);
    if ReadyCount(h, rs) < |rs| {
      LoadAllExitCode(rs, specs, h);
    }
  }
}
