# mjpg-streamer host: option handling, plugin loading and shutdown

The `mjpg_streamer` host program reads its command line, optionally forks into
the background, and sets up the shared frame state: the stop flag, the frame
buffer, the mutex and the condition variable. It installs a SIGINT handler. It
then loads one input plugin and one or more output plugins. For each plugin it
splits the plugin spec into a file name and a parameter string, opens the file,
resolves the entry points and calls the plugin's init. Once every plugin is
ready it starts them all and waits for a signal. The SIGINT handler raises the
stop flag, stops every plugin, calls `dlclose` for every plugin, destroys the
condition variable and the mutex, and exits with status 0.

This project models that host as pure Dafny functions:

- `PluginSpec` (plugin_spec.dfy) splits a plugin spec at its first space. It
  also models the host's own pointer arithmetic for this, including the
  wrapped 64-bit difference it relies on when the spec has no space.
- `Options` (options.dfy) folds over the recognised options. A help, version or
  unrecognised option stops parsing. `-i` replaces the input spec, `-o` appends
  an output spec and `-b` asks for the background. Independent reference
  definitions say what the fold computes.
- `Events` (events.dfy) describes the process as a trace of events. Two
  projections give the ordering rules: the phases one plugin slot passes
  through (`Lifecycle`), and the slots entering one phase, in order
  (`Entering`). The `Opened` phase means that opening the plugin's file was
  attempted, whether or not `dlopen` succeeded. The `Closed` phase means that
  `dlclose` was called for the plugin.
- `Startup` (startup.dfy) loads plugins. Everything the operating system or a
  plugin decides is an input, a `Host` value: whether each file opens, which
  entry points it exports, and what its init returns.
- `Shutdown` (shutdown.dfy) is the signal handler's trace.
- `Streamer` (streamer.dfy) puts these together. It gives `main` up to its
  wait, and the whole session when an interrupt then arrives. It compares both
  against reference definitions: `ExpectedEnd`, which says how `main` ends, and
  `Reached`, which lists the slots entering each phase.

## Model

| member | source | states |
|---|---|---|
| PluginSpec.PluginName | mjpg-streamer/mjpg_streamer.c:239-240 | The plugin file name is a prefix of the spec. It is the whole spec exactly when the spec has no space or starts with one. Otherwise it is non-empty, contains no space, and the spec continues with a space. |
| PluginSpec.ParameterString | mjpg-streamer/mjpg_streamer.c:267 | The parameter string is absent exactly when the spec has no space. Otherwise it is the suffix of the spec that starts at the first space, space included. |
| PluginSpec.NameAsWrittenIsPluginName | mjpg-streamer/mjpg_streamer.c:276-277 | At every address the spec may be stored at, the host's computation yields the prefix before the first space, or the whole spec. That computation is the size_t difference between the `strchr` result and the spec, followed by `strndup` or `strdup`. |
| PluginSpec.SplitRoundTrip | mjpg-streamer/mjpg_streamer.c:239-240 | A spec that does not start with a space is its file name followed by its parameter string. |
| PluginSpec.JoinSplit | mjpg-streamer/mjpg_streamer.c:304 | A space-free name followed by a parameter string that starts with a space splits back into exactly that name and that parameter string. |
| PluginSpec.LeadingSpaceKeepsWholeSpec | mjpg-streamer/mjpg_streamer.c:239-240 | A spec that starts with a space is passed whole, both as the file name and as the parameter string. |
| Options.Accumulate | mjpg-streamer/mjpg_streamer.c:134-198 | When parsing runs to the end, it has added one output spec for every `-o` option it read. |
| Options.Parse | mjpg-streamer/mjpg_streamer.c:125-131 | Parsing starts from the built-in input spec and no outputs, and never exceeds the output table's capacity. |
| Options.FirstQuit | mjpg-streamer/mjpg_streamer.c:157-197 | The reference for early quitting: there is no reason exactly when no option stops parsing. Otherwise the reason belongs to the first option that stops parsing. |
| Options.LastInputMeaning | mjpg-streamer/mjpg_streamer.c:170 | The input spec comes from an `-i` option that no later `-i` follows. The fallback is used only when there is no `-i` at all. |
| Options.AccumulateMeaning | mjpg-streamer/mjpg_streamer.c:134-198 | The first option that stops parsing decides the quit reason. Otherwise the last `-i` wins, every `-o` spec is appended in order, and any `-b` sets the daemon flag. |
| Options.StepAgrees | mjpg-streamer/mjpg_streamer.c:167-192 | One step of the fold keeps the last input, the output list and the background flag equal to the reference definitions. |
| Options.ParseMeaning | mjpg-streamer/mjpg_streamer.c:232-235 | Help, version and unrecognised options quit, with the first such option's reason. Otherwise the host drives between 1 and `MaxOutputPlugins` outputs, and the default output is used exactly when no `-o` was given. |
| Events.OrderFacts | mjpg-streamer/mjpg_streamer.c:275 | The host's plugin order lists each slot once: the input, then outputs 0 to n-1. |
| Startup.ResolveMeaning | mjpg-streamer/mjpg_streamer.c:241-265 | Resolution fails with "not found" exactly when the file does not open. A missing entry point is the first mandatory one, in the order init, stop, run, that is absent. Resolution succeeds exactly when all three are present, and it records whether cmd is present. |
| Startup.CmdIsOptional | mjpg-streamer/mjpg_streamer.c:264-265 | Adding or removing the cmd entry point never changes whether a plugin becomes ready. |
| Startup.LoadPlugin | mjpg-streamer/mjpg_streamer.c:238-241 | Loading a plugin first attempts to open the file named by its spec, whether or not `dlopen` then succeeds. It has ended the process exactly when the plugin does not become ready. |
| Startup.LoadPluginSteps | mjpg-streamer/mjpg_streamer.c:238-272 | Loading one plugin opens nothing after its own file and can exit only as its last step. A plugin that is not ready exits with failure for a missing file or entry point, and with 0 for a refusing init. A resolved plugin is bound and then initialised with its spec's parameter string. A file that cannot be opened is reported as not found right after the open attempt. A missing entry point is reported under the symbol name the host looked up. |
| Startup.LoadPluginReports | mjpg-streamer/mjpg_streamer.c:241-263 | A file that does not open is reported as not found for its slot, and the process exits with failure. The same holds for the first mandatory entry point an opened plugin lacks: the report names the `input_`/`output_` symbol looked up. Loading reports something exactly when the entry points do not resolve. |
| Startup.SymbolNames | mjpg-streamer/mjpg_streamer.c:249-265 | Different entry points are looked up under different symbol names. |
| Startup.LoadPluginCalls | mjpg-streamer/mjpg_streamer.c:239-241 | Loading one plugin calls `dlopen` once, on the file its spec names. It calls init once, with the spec's parameter string, exactly when the entry points resolve. |
| Startup.CallsFor | mjpg-streamer/mjpg_streamer.c:276-306 | The reference list of calls: the j-th call goes to the j-th slot and carries the file name or parameter string of the j-th spec. |
| Startup.LoadPluginLifecycle | mjpg-streamer/mjpg_streamer.c:238-272 | Loading a plugin touches only its own slot. Opening the slot's file is attempted, and the slot is also bound and initialised when its entry points resolve. |
| Startup.LoadPluginEntering | mjpg-streamer/mjpg_streamer.c:238-272 | Loading a plugin enters the opened phase (opening attempted) for that slot, even when the file is not found. It enters the bound and initialised phases only when the entry points resolve. |
| Startup.LoadPluginInitsBeforeNextOpen | mjpg-streamer/mjpg_streamer.c:238-272 | Within one plugin's loading, no second plugin is opened. |
| Startup.ReadyCount | mjpg-streamer/mjpg_streamer.c:275-310 | The number of plugins that become ready before the first that does not. All plugins before that index are ready, and the plugin at that index is not. |
| Startup.LoadAllExit | mjpg-streamer/mjpg_streamer.c:275-310 | Loading keeps the process running exactly when every plugin becomes ready. Any exit is the last step. |
| Startup.LoadAllExitCode | mjpg-streamer/mjpg_streamer.c:278-309 | When loading fails, the process exits with the status of the first plugin that did not become ready. |
| Startup.LoadAllSettled | mjpg-streamer/mjpg_streamer.c:237-310 | Loading never waits. It is quiet exactly when every plugin becomes ready, and otherwise ends with the failing plugin's status. |
| Startup.LoadAllOpened | mjpg-streamer/mjpg_streamer.c:275-278 | Opening is attempted for plugins in list order, each only after all earlier ones became ready. It is attempted for the ready plugins, plus the first plugin that is not ready, even when that plugin's file is not found. |
| Startup.LoadAllInitialised | mjpg-streamer/mjpg_streamer.c:269-309 | Plugins are bound and initialised in list order. These are the ready plugins, plus the first plugin that is not ready when its entry points resolve. |
| Startup.LoadAllCalls | mjpg-streamer/mjpg_streamer.c:274-309 | The `dlopen` calls of loading are, in order, one per slot whose opening is attempted, each on the file its own spec names. The init calls are, in order, one per initialised slot, each with its own spec's parameter string. |
| Startup.DefaultSpecs | mjpg-streamer/mjpg_streamer.c:125-130 | The default input spec names `input_uvc.so` with parameters " --resolution 640x480 --fps 5 --device /dev/video0". The default output spec names `output_http.so` with parameters " --port 8080". |
| Startup.LoadDefaultOutput | mjpg-streamer/mjpg_streamer.c:274-306 | Loading an input and the default output opens the input's file first. Then, exactly when the input becomes ready, it opens `output_http.so` for output 0, whose init, once resolved, receives " --port 8080". |
| Startup.LoadAllNoLaterPhase | mjpg-streamer/mjpg_streamer.c:237-310 | Loading never starts, stops or closes a plugin. |
| Startup.LoadAllInitsBeforeNextOpen | mjpg-streamer/mjpg_streamer.c:275-310 | Whenever a plugin is opened, every plugin opened before it has already been initialised. |
| Startup.LoadAllLifecycle | mjpg-streamer/mjpg_streamer.c:237-310 | Each slot goes through a prefix of opened, bound and initialised, and slots outside the list are untouched. When all plugins become ready, each listed slot goes through all three. |
| Shutdown.HandlerAt | mjpg-streamer/mjpg_streamer.c:92-114 | The exact step at each position of the handler: the flag and a grace sleep; stopping the input, then the outputs; a second grace sleep; closing in the same order; destroying the condition variable, then the mutex; the exit. |
| Shutdown.HandlerOrder | mjpg-streamer/mjpg_streamer.c:92-114 | The handler raises the stop flag first and exits with 0 last, with no earlier exit or wait. Its stages never go backwards: flag, stops, closes, condition variable, mutex, exit. |
| Shutdown.HandlerGrace | mjpg-streamer/mjpg_streamer.c:95-103 | Every stop comes after a grace sleep, and a grace sleep separates every stop from every later close. |
| Shutdown.HandlerEntering | mjpg-streamer/mjpg_streamer.c:99-107 | The handler stops, and then closes, exactly the host's slots, in the host's order: the input first, then the outputs by index. |
| Shutdown.HandlerLifecycle | mjpg-streamer/mjpg_streamer.c:99-107 | Each slot the host drives is stopped and then closed once. Other slots are untouched. |
| Streamer.SetupFacts | mjpg-streamer/mjpg_streamer.c:205-227 | Set-up begins by resetting the shared state and concerns no plugin. It goes on quietly exactly when the mutex, the condition variable and the handler are all set up. Otherwise it exits with failure. |
| Streamer.SetupReports | mjpg-streamer/mjpg_streamer.c:205-227 | Set-up resets the state, creates the mutex, then the condition variable, then installs the SIGINT handler. The first of these three that fails is reported by name just before the exit with failure, and nothing after it is attempted. A successful set-up reports nothing. |
| Streamer.BootCases | mjpg-streamer/mjpg_streamer.c:205-321 | Start-up is set-up alone when set-up fails. It is set-up and loading when a plugin fails. It is set-up, loading, starting and waiting when everything succeeds. |
| Streamer.StartFailsSetup | mjpg-streamer/mjpg_streamer.c:211-227 | When set-up fails, start-up ends at once, exiting with failure. |
| Streamer.StartFailsLoading | mjpg-streamer/mjpg_streamer.c:237-310 | When a plugin fails, start-up ends with that plugin's exit status. |
| Streamer.StartServes | mjpg-streamer/mjpg_streamer.c:312-321 | When everything succeeds, start-up starts every plugin and ends waiting. |
| Streamer.LaunchEntering | mjpg-streamer/mjpg_streamer.c:313-318 | Starting runs the input and then each output by index, and enters no other phase. |
| Streamer.BootEntering | mjpg-streamer/mjpg_streamer.c:237-318 | For every phase, start-up enters it for exactly the slots the reference `Reached` names. |
| Streamer.ReachedIsPrefix | mjpg-streamer/mjpg_streamer.c:275-318 | The slots entering any phase during start-up are a prefix of the host's plugin order. |
| Streamer.MainOutcome | mjpg-streamer/mjpg_streamer.c:123-321 | `main` exits or waits only as its last step, and ends as the reference `ExpectedEnd` says. |
| Streamer.MainStatus | mjpg-streamer/mjpg_streamer.c:133-310 | `main` waits exactly when parsing, set-up and every plugin succeed. It exits with failure exactly when set-up fails or the first failing plugin has a missing file or entry point. Help and version are exactly the first quitting option's two-step traces. |
| Streamer.MainEntering | mjpg-streamer/mjpg_streamer.c:237-318 | `main` enters each phase for exactly the slots `Reached` names, always a prefix of the plugin order. A quitting option enters none. |
| Streamer.BootCalls | mjpg-streamer/mjpg_streamer.c:237-309 | Start-up calls `dlopen`, and init, for exactly the slots `Reached` names in that phase, in slot order, each with its own spec's file name or parameter string. |
| Streamer.MainCalls | mjpg-streamer/mjpg_streamer.c:133-309 | Under options that do not quit, `main` calls `dlopen` and init for the slots `Reached` names. The input's call uses the last `-i` spec, or the default input. The outputs' calls use the `-o` specs in order, or the single default output. Options that quit make no such call. |
| Streamer.DefaultOutputLoaded | mjpg-streamer/mjpg_streamer.c:232-278 | Without `-o`, once set-up succeeds, `main` opens the input's file first: `input_uvc.so` when there is no `-i`. Exactly when the input becomes ready, it then opens `output_http.so` for output 0, and that output's init receives " --port 8080". |
| Streamer.MainLifecycle | mjpg-streamer/mjpg_streamer.c:237-318 | Each slot passes through a prefix of opened, bound, initialised and started. Only slots the host drives are touched, and only after parsing and set-up succeeded. When everything succeeds, every driven slot passes through all four. |
| Streamer.MainOrdering | mjpg-streamer/mjpg_streamer.c:274-318 | In `main`, every plugin opened earlier is initialised before the next one is opened, and no plugin is loaded after a plugin was started. |
| Streamer.MainUnhandled | mjpg-streamer/mjpg_streamer.c:123-321 | `main` itself never raises the stop flag, sleeps, stops, closes or destroys anything. |
| Streamer.BootBegins | mjpg-streamer/mjpg_streamer.c:205-227 | A successful set-up resets the state, creates the mutex and then the condition variable, and installs the handler, before anything else. |
| Streamer.MainForks | mjpg-streamer/mjpg_streamer.c:200-203 | `main` forks into the background first exactly when no option quits and some option asks for the background. |
| Streamer.MainSetupFirst | mjpg-streamer/mjpg_streamer.c:205-241 | Every plugin step of `main` comes after the mutex, the condition variable and the handler were set up. Options that quit and a failed set-up touch no plugin. |
| Streamer.SessionEnd | mjpg-streamer/mjpg_streamer.c:320-321 | The process is left waiting exactly when everything succeeded and no interrupt came. With an interrupt after success, it ends with exit 0. Otherwise it has exited. |
| Streamer.SessionLifecycle | mjpg-streamer/mjpg_streamer.c:97-107 | Over the whole session each slot passes through a prefix of opened, bound, initialised, started, stopped and closed. When everything succeeds, each driven slot reaches started, and also stopped and closed when interrupted. |
| Streamer.SessionCleanup | mjpg-streamer/mjpg_streamer.c:109-110 | The stop flag is raised and the condition variable and mutex are destroyed exactly when an interrupt follows a successful start-up. Neither is destroyed before both were created. |

## Left out

- Option recognition by `getopt_long_only` is not modelled. The model starts from the recognised options. Short and long spellings map to the same option, and `optarg` copies are the spec strings themselves.
- The work `daemon_mode` does is not modelled; forking is the single `Daemonize` step.
- Only some output appears as steps. The help text is a `ShowHelp` step and the version text a `ShowVersion` step. Each error message printed before an `EXIT_FAILURE` exit is a `Report` step, without its `dlerror` text.
- Other messages produce no step at all. These are the start-up banner (line 230), the handler's three messages (lines 93, 98 and 112), the diagnostic `getopt_long_only` prints for an unrecognised option, and the debug lines (lines 270, 307, 313 and 316).
- `usleep` is a `Sleep` step with its duration. No clock is modelled.
- Mutex and condition-variable semantics, and the frame publish and await protocol between the plugins, are not modelled. The plugins are not part of this model. Only the creation and destruction of these objects appear as steps.
- The calls into the plugins' `init`, `run` and `stop` are foreign code. The init result is an input, and run and stop are single steps.
- Signals are not modelled during start-up or while the handler runs, and other signals that may end `pause` are not modelled either. The session lets at most one SIGINT arrive, once `main` waits. The handler then exits, so the `return 0` after `pause` is never reached.
- Closing a plugin is an abstract `Close` step. The handler passes `&handle` to `dlclose` rather than the handle itself, and the model does not reproduce that misuse.
- Options.Accumulate: the source never checks `-o` options against `MAX_OUTPUT_PLUGINS` and writes past its array. The model requires the bound (`Options.WithinCapacity`) rather than modelling that overflow.
- Options.Parse: the same capacity bound is required here.
- PluginSpec.NameAsWritten: with no space in the spec, subtracting the spec's address from NULL is undefined in C. The model takes the wrapped 64-bit difference, and requires the spec to lie above address 0 within the address space.
- Strings have no terminating NUL, so a spec containing a NUL character is not modelled.
- `EXIT_FAILURE` (1) and `MAX_OUTPUT_PLUGINS` (10) come from headers that are not part of this model. The values are those of the C library and of the project's header.
