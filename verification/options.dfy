/**
 * The command-line options the host acts on, and how `main` accumulates them
 * into the input spec, the list of output specs and the daemon flag.
 */
module Options {
  import opened Wrappers

  /** One option as `getopt_long_only` reports it; `Unrecognized` is its '?' result. */
  datatype Opt =
    | Help
    | Input(spec: string)
    | Output(spec: string)
    | Version
    | Background
    | Unrecognized

  /** What the options leave behind when parsing runs to the end. */
  datatype Config = Config(input: string, outputs: seq<string>, daemon: bool)

  datatype QuitReason = HelpShown | VersionShown

  /** Either parsing ran to the end, or an option made `main` return 0 at once. */
  datatype Parsed = Proceed(cfg: Config) | Quit(reason: QuitReason)

  /** Capacity of the host's output table (`MAX_OUTPUT_PLUGINS`). */
  const MaxOutputPlugins: nat := 10

  /**
   * The input spec used without `-i`, written as the plugin file followed by
   * its parameters: "input_uvc.so --resolution 640x480 --fps 5 --device /dev/video0".
   */
  const DefaultInput: string := "input_uvc.so" + (" --resolution 640x480" + " --fps 5" + " --device /dev/video0")

  /** The output spec used without `-o`: "output_http.so --port 8080". */
  const DefaultOutput: string := "output_http.so" + " --port 8080"

  /** Why an option stops parsing, if it does: help and unrecognised options show the help text, version shows the version. */
  function QuitReasonOf(o: Opt): Option<QuitReason> {
    match o
    case Help => Some(HelpShown)
    case Unrecognized => Some(HelpShown)
    case Version => Some(VersionShown)
    case _ => None
  }

  /** The number of `-o` options parsed before an option stops parsing. */
  function ConsumedOutputs(opts: seq<Opt>): nat {
    if |opts| == 0 || QuitReasonOf(opts[0]).Some? then 0
    else (if opts[0].Output? then 1 else 0) + ConsumedOutputs(opts[1..])
  }

  /** The `-o` options that are parsed fit in the output table; the host never checks this itself. */
  predicate WithinCapacity(opts: seq<Opt>) {
    ConsumedOutputs(opts) <= MaxOutputPlugins
  }

  /** How an option that does not stop parsing changes the state: `-i` replaces the input, `-o` appends an output, `-b` sets the daemon flag. */
  function Step(cfg: Config, o: Opt): Config {
    match o
    case Input(s) => cfg.(input := s)
    case Output(s) => cfg.(outputs := cfg.outputs + [s])
    case Background => cfg.(daemon := true)
    case _ => cfg
  }

  /** The parse loop of `main`, continuing from `cfg`: a left fold over the options. */
  function Accumulate(cfg: Config, opts: seq<Opt>): (p: Parsed)
    requires |cfg.outputs| + ConsumedOutputs(opts) <= MaxOutputPlugins
    ensures p.Proceed? ==> |p.cfg.outputs| == |cfg.outputs| + ConsumedOutputs(opts)
    decreases |opts|
  {
    if |opts| == 0 then Proceed(cfg)
    else if QuitReasonOf(opts[0]).Some? then Quit(QuitReasonOf(opts[0]).value)
    else Accumulate(Step(cfg, opts[0]), opts[1..])
  }

  /** The parse loop of `main` from its initial state: the built-in input spec, no outputs, no daemon. */
  function Parse(opts: seq<Opt>): (p: Parsed)
    requires WithinCapacity(opts)
    ensures p.Proceed? ==> |p.cfg.outputs| <= MaxOutputPlugins
  {
    Accumulate(Config(DefaultInput, [], false), opts)
  }

  /** The output specs the host starts: those given with `-o`, or the default one alone. */
  function EffectiveOutputs(cfg: Config): seq<string> {
    if |cfg.outputs| == 0 then [DefaultOutput] else cfg.outputs
  }

  /** How many output plugins the host drives (`global.outcnt` once startup begins); 0 when it quits early. */
  function OutputCount(p: Parsed): nat {
    match p
    case Proceed(cfg) => |EffectiveOutputs(cfg)|
    case Quit(_) => 0
  }

  // Reference definitions, stated independently of the fold.

  /** The reason given by the first option that stops parsing. */
  function FirstQuit(opts: seq<Opt>): (q: Option<QuitReason>)
    ensures q.None? <==> forall k | 0 <= k < |opts| :: QuitReasonOf(opts[k]).None?
    ensures q.Some? ==>
              exists k | 0 <= k < |opts| ::
                && QuitReasonOf(opts[k]) == q
                && forall j | 0 <= j < k :: QuitReasonOf(opts[j]).None?
  {
    if |opts| == 0 then None
    else if QuitReasonOf(opts[0]).Some? then QuitReasonOf(opts[0])
    else
      var q := FirstQuit(opts[1..]);
      assert forall k | 0 < k < |opts| :: opts[k] == opts[1..][k - 1];
      q
  }

  /** The spec of the last `-i` option, scanning from the end; `fallback` if there is none. */
  function LastInput(opts: seq<Opt>, fallback: string): string {
    if |opts| == 0 then fallback
    else if opts[|opts| - 1].Input? then opts[|opts| - 1].spec
    else LastInput(opts[..|opts| - 1], fallback)
  }

  /** The scan finds the spec of an `-i` option that no later `-i` follows, and the fallback only when there is no `-i` at all. */
  lemma {:induction false} LastInputMeaning(opts: seq<Opt>, fallback: string)
    ensures (forall k | 0 <= k < |opts| :: !opts[k].Input?) ==> LastInput(opts, fallback) == fallback
    ensures (exists k | 0 <= k < |opts| :: opts[k].Input?) ==>
              exists k | 0 <= k < |opts| ::
                && opts[k].Input?
                && LastInput(opts, fallback) == opts[k].spec
                && forall j | k < j < |opts| :: !opts[j].Input?
    decreases |opts|
  {
    if |opts| > 0 && !opts[|opts| - 1].Input? {
      var front := opts[..|opts| - 1];
      LastInputMeaning(front, fallback);
      assert forall k | 0 <= k < |front| :: front[k] == opts[k];
      if exists k | 0 <= k < |opts| :: opts[k].Input? {
        var i :| 0 <= i < |opts| && opts[i].Input?;
        assert front[i].Input?;
        var k :| 0 <= k < |front| && front[k].Input? && LastInput(front, fallback) == front[k].spec
                 && forall j | k < j < |front| :: !front[j].Input?;
        assert opts[k].Input? && LastInput(opts, fallback) == opts[k].spec;
      }
    }
  }

  /** The specs of all `-o` options, in order. */
  function OutputSpecs(opts: seq<Opt>): seq<string> {
    if |opts| == 0 then []
    else (if opts[0].Output? then [opts[0].spec] else []) + OutputSpecs(opts[1..])
  }

  /** Some option asks to run in the background. */
  predicate Backgrounded(opts: seq<Opt>) {
    exists k | 0 <= k < |opts| :: opts[k].Background?
  }

  /** Scanning from the end agrees with remembering the latest `-i` from the front. */
  lemma {:induction false} LastInputFromFront(opts: seq<Opt>, fallback: string)
    requires 0 < |opts|
    ensures LastInput(opts, fallback)
            == LastInput(opts[1..], if opts[0].Input? then opts[0].spec else fallback)
    decreases |opts|
  {
    var g := if opts[0].Input? then opts[0].spec else fallback;
    if |opts| == 1 {
      assert opts[1..] == [];
    } else if opts[|opts| - 1].Input? {
      assert opts[1..][|opts[1..]| - 1] == opts[|opts| - 1];
    } else {
      var front := opts[..|opts| - 1];
      assert opts[1..][|opts[1..]| - 1] == opts[|opts| - 1];
      assert opts[1..][..|opts[1..]| - 1] == front[1..];
      assert front[0] == opts[0];
      LastInputFromFront(front, fallback);
    }
  }

  /** Some option asks to run in the background exactly when the first one does or a later one does. */
  lemma {:induction false} BackgroundedCons(opts: seq<Opt>)
    requires 0 < |opts|
    ensures Backgrounded(opts) <==> opts[0].Background? || Backgrounded(opts[1..])
  {
    if Backgrounded(opts[1..]) {
      var k :| 0 <= k < |opts[1..]| && opts[1..][k].Background?;
      assert opts[k + 1] == opts[1..][k];
    }
    if Backgrounded(opts) && !opts[0].Background? {
      var k :| 0 <= k < |opts| && opts[k].Background?;
      assert opts[1..][k - 1] == opts[k];
    }
  }

  /**
   * The fold means: if some option stops parsing, the first such option decides
   * the result; otherwise the last `-i` wins over the starting input, every `-o`
   * is appended in order, and any `-b` sets the daemon flag.
   */
  lemma {:induction false} AccumulateMeaning(cfg: Config, opts: seq<Opt>)
    requires |cfg.outputs| + ConsumedOutputs(opts) <= MaxOutputPlugins
    ensures FirstQuit(opts).Some? ==> Accumulate(cfg, opts) == Quit(FirstQuit(opts).value)
    ensures FirstQuit(opts).None? ==>
              Accumulate(cfg, opts)
              == Proceed(Config(LastInput(opts, cfg.input),
                                cfg.outputs + OutputSpecs(opts),
                                cfg.daemon || Backgrounded(opts)))
    decreases |opts|
  {
    if |opts| == 0 {
    } else if QuitReasonOf(opts[0]).Some? {
    } else {
      var rest := opts[1..];
      var next := Step(cfg, opts[0]);
      AccumulateMeaning(next, rest);
      assert FirstQuit(opts) == FirstQuit(rest);
      if FirstQuit(opts).None? {
        StepAgrees(cfg, opts);
      }
    }
  }

  /** One step of the fold keeps the reference definitions in agreement. */
  lemma {:induction false} StepAgrees(cfg: Config, opts: seq<Opt>)
    requires 0 < |opts| && QuitReasonOf(opts[0]).None?
    ensures var next := Step(cfg, opts[0]);
            && LastInput(opts[1..], next.input) == LastInput(opts, cfg.input)
            && next.outputs + OutputSpecs(opts[1..]) == cfg.outputs + OutputSpecs(opts)
            && (next.daemon || Backgrounded(opts[1..])) == (cfg.daemon || Backgrounded(opts))
  {
    LastInputFromFront(opts, cfg.input);
    BackgroundedCons(opts);
    StepOutputs(cfg, opts);
  }

  lemma {:induction false} StepOutputs(cfg: Config, opts: seq<Opt>)
    requires 0 < |opts|
    ensures Step(cfg, opts[0]).outputs + OutputSpecs(opts[1..]) == cfg.outputs + OutputSpecs(opts)
  {
    var o := opts[0];
    var tail := OutputSpecs(opts[1..]);
    var head: seq<string> := if o.Output? then [o.spec] else [];
    assert OutputSpecs(opts) == head + tail;
    assert Step(cfg, o).outputs == cfg.outputs + head;
    assert (cfg.outputs + head) + tail == cfg.outputs + (head + tail);
  }

  /**
   * Parsing from the host's initial state: unless an option stops parsing, the
   * input spec is that of the last `-i` or the built-in default, the outputs are
   * the `-o` specs in order, and the host drives at least one and at most
   * `MaxOutputPlugins` outputs, the default one exactly when no `-o` was given.
   */
  lemma {:induction false} ParseMeaning(opts: seq<Opt>)
    requires WithinCapacity(opts)
    ensures FirstQuit(opts).Some? <==> Parse(opts).Quit?
    ensures FirstQuit(opts).Some? ==> Parse(opts).reason == FirstQuit(opts).value
    ensures FirstQuit(opts).None? ==>
              && Parse(opts).cfg.input == LastInput(opts, DefaultInput)
              && Parse(opts).cfg.outputs == OutputSpecs(opts)
              && Parse(opts).cfg.daemon == Backgrounded(opts)
              && 1 <= OutputCount(Parse(opts)) <= MaxOutputPlugins
              && EffectiveOutputs(Parse(opts).cfg)
                 == if OutputSpecs(opts) == [] then [DefaultOutput] else OutputSpecs(opts)
  {
    AccumulateMeaning(Config(DefaultInput, [], false), opts);
    assert [] + OutputSpecs(opts) == OutputSpecs(opts);
  }
}
