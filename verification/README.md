# Speech-to-text sessions, verified

A Dafny model of the Tizen speech-to-text service: the daemon that owns one recognition engine and one
recorder and serves many client processes, the client library those processes use, and the messages between
them. It proves what the service promises over whole runs: who may use the engine and the recorder, how long
a client can stay in processing, that both copies of a session's state agree, that options and engine ids stay
in step with the configuration, and that what an engine reports is what an application receives.

Check it with `dafny verify dfyconfig.toml --resource-limit 2000000 --verification-time-limit 0`.

## How it is built

Each source file that works by changing state has a class whose methods follow the source statement by
statement, and a specification as functions over a value of its state. Every method's postcondition ties the
new state to that function; the theorems are about the functions, so they hold of the methods.

| file | source | what it holds |
|---|---|---|
| `Types.dfy` | `common/`, headers | session states, error codes, answers through a function table |
| `ClientData.dfy` | `server/sttd_client_data.c` | the client list, its invariants, `ClientList` |
| `Config.dfy` | `server/sttd_config.c` | the text printer and scanner, `ConfigFile` |
| `EngineAgent.dfy` | `server/sttd_engine_agent.c` | load, unload, switch, options, language, `EngineHost` |
| `Recorder.dfy` | `server/sttd_recorder.c` | the state flag and the AMR replay loop, `RecorderObject` |
| `Daemon.dfy` | `server/sttd_server.c`, `server/sttd_dbus.c` | the session manager as a transition function `Step` over 19 kinds of events |
| `Server.dfy` | `server/sttd_server.c` | the session manager as it runs, `SttServer`, proved to do what `Step` says |
| `Sessions.dfy`, `Devices.dfy`, `Engines.dfy`, `Options.dfy`, `Timing.dfy` | | what every step keeps |
| `Runs.dfy` | | the same over every run from start-up |
| `Camcorder.dfy` | `server/sttd_recorder.c` | the recorder's flag against the camcorder it stands for, over steps and runs |
| `Usage.dfy` | `server/sttp.h`, `server/sttd_server.c` | a held session has an engine in recognition: no stop or cancel reaches an idle one |
| `Leftovers.dfy` | `server/sttd_server.c` | which timers outlive their session, and that otherwise everybody has the whole 15.5 s |
| `Answers.dfy` | `server/sttd_server.c` | the reason behind each answer of the daemon |
| `Network.dfy` | `server/sttd_engine_agent.c` | the list entry the current engine was taken from, and starts without a network |
| `Silence.dfy` | `server/sttd_server.c`, `server/sttd_engine_agent.c` | from a report of silence to both sides in PROCESSING |
| `Settings.dfy` | `server/sttd_client_data.c` | who is registered as a setting application |
| `Stale.dfy` | `server/sttd_server.c` | a run with a time-out left behind that comes due too early for somebody else |
| `Restart.dfy` | `server/sttd_config.c` | what a daemon knows again when started on the file another one left |
| `Cleanup.dfy` | `server/sttd_server.c` | the cleanup pass is a filter |
| `ClientLibrary.dfy` | `client/stt_client.c`, `client/stt.c` | ids, the handle list, the client's state machine, `Library` |
| `Effects.dfy`, `Composition.dfy`, `Agreement.dfy` | both sides | the daemon, all handles and the results in flight as one system |
| `Messages.dfy` | `server/sttd_dbus.c`, `client/stt_dbus.c` | the layout of the result message and both loops over it |

Everything the program meets outside itself is a parameter of a step: the engine's answers, the camcorder, the
network, the bus, the client process, the order of events. `Env` gathers them. What a theorem assumes of them is
written out as a predicate (`EngineRely`, `RecorderRely`, `CamcorderRely`, `LoadRely`, `NameRely`, `Punctual`,
`WatchRely`, `UseRely`, `Rely`); a theorem without such a predicate assumes nothing of any device. Success is taken at its
word: an engine that accepts a start is in recognition, one that accepts a cancel is not, and one that was
unloaded is not (`server/sttp.h:415-490`). Failure is not: after a refused start or stop, and after a report, the
engine may or may not be in recognition, as `Env` has it.

The timers of the main loop carry fresh ids, a kind and a time due; deleting an id that is gone does nothing.
Timers that the source leaves behind (finalizing a client, a failed stop) are left behind here, and fire on
whoever is current then; `Leftovers.StepOwned` says exactly which steps leave one.

## Where the code does less than one would think

Each is a lemma that says exactly when the expected property holds.

- A failed engine stop leaves the daemon READY and the client RECORDING (`Agreement.StopAgreesWhen`).
- A result that comes while its client records, an empty success, a result with a missing string and one that
  cannot be sent break agreement; no other result does (`Agreement.ResultAgreesWhen`). A time-out breaks it if
  its message cannot be sent (`Agreement.TimeoutAgreesWhen`), a stop by silence if the engine does not stop or
  the client does not take its new state (`Agreement.SilenceAgreesWhen`).
- A living client that does not answer the watchdog or the cleanup in time is forgotten by the daemon and goes on
  in its own state: settled for the daemon, in disagreement for the client (`Agreement.CheckAgreesWhen`,
  `Agreement.CleanupAgreesWhen`).
- The watchdog takes a handle that was destroyed inside a living process, and a handle in CREATED, for a client
  in order, and it gives up after a cancel that failed (`Agreement.WatchdogConverges`).
- A recorder that cannot be cancelled keeps its flag after the session is over (`Devices.CancelNeedsRecorder`),
  and a result that comes too early leaves the recorder running (`Devices.ResultNeedsTiming`).
- An engine without a stop function, and one that refuses a stop or a start and goes on all the same, stay in
  recognition for nobody (`Devices.StopNeedsEngine`, `Devices.StartNeedsEngine`), and so does one that goes on
  after its report (`Devices.ResultNeedsEnd`).
- A client that registers during another one's recording cancels the camcorder and leaves the recorder's flag
  up; nothing else parts the two (`Camcorder.TunedWhen`).
- A client can be timed out before its own 15.5 s exactly when a time-out left by somebody else is due earlier
  (`Runs.TimedOutInTime`, `Timing.EarlierTimeoutEnds`); stop, finalize, and another client's start and stop are
  enough to get there (`Stale.StaleTimeoutReached`), and only steps that remove a processing client otherwise than
  by its result, its cancel or its time-out lead there (`Leftovers.LeftWhen`, `Leftovers.TimedOutInFull`).
- A new handle under an id that the daemon still lists for an earlier owner, or that has a result on its way,
  starts out in disagreement (`Agreement.CreateAgreesWhen`).
- The setting setters change the engine and the default but not the cached value
  (`EngineAgent.SetterBreaksStep`).
- A switch that fails while loading does not bring the old engine back (`EngineAgent.KnownSwitch`), and a mere
  beginning of an engine id is accepted and persisted as it stands (`EngineAgent.SwitchAgrees`).
- An engine whose audio format is none of the three known unloads itself under its other users
  (`Engines.UnknownFormatUnloads`).
- A configuration file missing a string is rewritten with the word "(null)" in its place
  (`Config.RepairExactly`). A number that does not scan becomes the last integer read before it, so an earlier
  value survives it exactly if it happens to equal that integer (`Config.NumbersTaken`,
  `Config.UnreadableNumberKeeps`; `Config.UnreadableNumberIsZero` shows the loss). So with words: a language
  line without one takes the engine id for the language (`Config.StringsTaken`, `Config.MissingWordRepeats`,
  `Config.LanguageTakesEngineId`).
- Client ids leave 32 bits for pids above 2147482 (`ClientLibrary.UidsFit`), and the list lookup goes wrong
  exactly when two live handles are a multiple of 999 allocations apart (`ClientLibrary.LookupAgrees`).
- A type or text that is absent and one that says "None" look alike on the wire (`Messages.AlikeWhen`).

## Model

| member | source | states |
|---|---|---|
| Runs.AlwaysExclusive | server/sttd_server.c:549-573 | in every state of every run, whatever the devices answer: uids unique and positive, nobody in CREATED, at most one client not READY, and the agent's invariant (option cache, language, defaults and language as in the configuration that is persisted) |
| Runs.SessionMoves | server/sttd_server.c:516-723 | the one session is taken only by a start, turns to processing only by its holder's stop or a timer, and ends only by a step naming the holder, a timer or a cleanup |
| Sessions.StepSession | server/sttd_server.c:549-723 | the step behind both |
| Sessions.StartSession | server/sttd_server.c:549-615 | a start succeeds only on a free session and takes it for the starter; a failed one leaves the list alone |
| Sessions.StopSession | server/sttd_server.c:647-687 | a stop turns the holder's session to processing, or frees it when the engine's stop fails |
| Sessions.CancelSession | server/sttd_server.c:689-723 | a cancel succeeds only for the holder, and frees the session |
| Sessions.FinalizeSession | server/sttd_server.c:378-411 | a client that leaves takes its session with it and nobody else's |
| Sessions.ResultSession | server/sttd_server.c:93-164 | a result ends the session of the client it names, if a loaded engine sent it |
| Sessions.TimeoutSession | server/sttd_server.c:617-644 | the time-out ends a processing session and no other |
| Sessions.CheckSession | server/sttd_server.c:516-547 | the watchdog leaves the session as it is or frees it |
| Sessions.SilenceSession | server/sttd_server.c:36-61 | a stop by silence turns recording into processing or frees the session |
| Sessions.CleanupSession | server/sttd_server.c:258-291 | a cleanup pass leaves the session as it is or frees it |
| Runs.EngineContract | server/sttp.h:431 | over runs with an engine that obeys cancels, is idle after a refused start or stop, and reports once, when it is done: the engine is never started while in recognition, and is in recognition only for the one client that is not READY |
| Devices.StepEngine | server/sttd_engine_agent.c:977-1106 | the step behind it, through start, stop, cancel, results, time-outs, unloading and a switch in mid-session, under the written assumptions only |
| Usage.AlwaysInUse | server/sttp.h:455-490 | whatever the devices answer, over runs in which no report but the holder's ends the recognition and no switch or unload takes the engine away in mid-session: while the session is held the engine is in recognition, and no stop or cancel ever reached it out of recognition |
| Usage.BusyWhenHeld | server/sttp.h:415-490 | with an engine that obeys as well: it is in recognition if and only if somebody holds the session |
| Usage.StepUses | server/sttd_server.c:36-723 | the step behind both |
| Devices.StartOwners | server/sttd_server.c:589-604 | a start reaches an idle engine; a recorder that does not start gives the engine back, and a refused start takes nothing if the engine is idle after it |
| Devices.FinalizeOwners | server/sttd_server.c:388-394 | a client that leaves releases both devices |
| Devices.SilenceOwners | server/sttd_server.c:36-61 | stop by silence, also when the client must be dropped, keeps both devices owned |
| Runs.RecorderContract | server/sttd_recorder.c:533-664 | over runs with a recorder that obeys and results after the stop: the recorder's flag says recording only for a client that is RECORDING |
| Devices.StepRecorder | server/sttd_server.c:355-410 | the step behind it, through a second client's registration and finalizing from processing, if the recorder obeys whenever its flag is up |
| Camcorder.StepInTune | server/sttd_recorder.c:533-664 | relying on a running camcorder only: flag and camcorder part in a step if and only if a client registers during a recording |
| Camcorder.TunedWhen | server/sttd_recorder.c:539-543 | flag and camcorder agree in all states of a run if and only if no client registers during a recording |
| Camcorder.UninterruptedContract | server/sttd_recorder.c:558-664 | on such runs the flag says recording only for the client that is RECORDING, although nothing is assumed of a camcorder that does not run |
| Devices.CancelNeedsRecorder | server/sttd_server.c:704-723 | after a successful cancel the recorder is owned if and only if it obeyed |
| Devices.StopNeedsRecorder | server/sttd_recorder.c:639-664 | after a stop, whatever the engine makes of it, the recorder is owned if and only if it was not recording, or has its callback and, for AMR, the recorded file |
| Devices.StopNeedsEngine | server/sttd_engine_agent.c:1056-1080 | after a stop the engine is owned if and only if it was idle, accepted, or refused and is idle: not if it has no stop function, nor if it refuses and goes on |
| Devices.StartNeedsEngine | server/sttd_server.c:589-604 | a start that reaches the engine leaves it owned if and only if the engine does not go on after refusing, and obeys the cancel when the recorder does not follow |
| Devices.ResultNeedsEnd | server/sttp.h:216-231 | after a result for the session's holder the engine is owned if and only if its recognition is over |
| Devices.ResultNeedsTiming | server/sttp.h:227 | after a result the recorder is owned if and only if its client was not still recording |
| Devices.StepSound | server/sttd_engine_agent.c:130-828 | option cache, language and persistence hold after every step, and a current engine exists exactly when the daemon thinks so |
| Runs.AlwaysLoaded | server/sttd_server.c:329-335 | over runs with known formats and no switch whose load fails: the engine is loaded while any client or setting client is registered |
| Engines.StepLoaded | server/sttd_server.c:316-347 | the step behind it |
| Engines.FinalizeUnloads | server/sttd_server.c:396-408 | the finalize that empties both lists leaves the engine unloaded |
| Engines.SettingFinalizeUnloads | server/sttd_server.c:765-782 | and so does the setting application's |
| Engines.UnknownFormatUnloads | server/sttd_server.c:352-368 | a newcomer's registration keeps the others' engine loaded if and only if the format is known |
| Engines.SwitchLoads | server/sttd_engine_agent.c:1304-1371 | after a switch request the engine is loaded if and only if it was not a real switch or its load succeeds |
| Runs.AlwaysNamed | server/sttd_engine_agent.c:232-320 | over runs with prefix-free ids: the persisted engine id is the current engine's |
| Engines.StepNamed | server/sttd_engine_agent.c:1304-1371 | the step behind it |
| EngineAgent.UnknownSwitch | server/sttd_engine_agent.c:1330-1349 | an id that begins no listed one changes neither current engine nor persisted id, and the old engine is loaded if and only if its reload succeeds |
| EngineAgent.KnownSwitch | server/sttd_engine_agent.c:1351-1370 | an id that begins a listed one is adopted; it is persisted, and an engine is loaded, if and only if its load succeeds |
| EngineAgent.SwitchAgrees | server/sttd_engine_agent.c:1318-1370 | after a successful switch the persisted id names the current engine if and only if it was listed in full |
| EngineAgent.InitializationAgrees | server/sttd_engine_agent.c:232-320 | a first successful initialization leaves the persisted id naming the current engine |
| Network.FirstChoice | server/sttd_engine_agent.c:232-320 | the first initialization: if no listed id begins the persisted one, the first listed engine becomes current and its id is persisted; otherwise it succeeds if and only if the persisted id begins a listed one, and nothing is persisted |
| Network.ChoiceTakes | server/sttd_engine_agent.c:545-616 | choosing by id succeeds if and only if the id begins a listed one; unless it begins the current id, the engine taken is the list's first with its id, with that entry's network flag |
| Network.AlwaysTaken | server/sttd_engine_agent.c:599-606 | in every state of every run, engine and network flag are those of one entry of the list of some earlier moment, the first with that id, and have not changed since that moment |
| Network.FlagAsListed | server/sttd_engine_agent.c:830-843 | as long as the directory lists the same engines, the flag is that of the listed entry with the current id |
| Network.StartNeedsNetwork | server/sttd_server.c:576-579 | in every run, a start of a READY client on a loaded engine nobody uses is refused for want of a network if and only if there is none and the entry the engine was taken from uses it |
| EngineAgent.LoadOutcome | server/sttd_engine_agent.c:618-790 | a load succeeds exactly when linking, the three option calls and the choice of a language do |
| EngineAgent.LoadLanguage | server/sttd_engine_agent.c:727-785 | a load keeps a default language the engine accepts; otherwise the first one the engine lists takes its place and is persisted |
| EngineAgent.SupportedAfterLoad | server/sttd_engine_agent.c:691-725 | after a load each of silence, profanity and punctuation counts as supported if and only if the engine took that option's call |
| Runs.SupportAsLoaded | server/sttd_engine_agent.c:845-867 | whoever registers, however late, is told the three options as the engine took them when it was loaded |
| EngineAgent.SwitchAppliesDefaults | server/sttd_engine_agent.c:605-616 | an engine newly switched to runs its supported options at the persisted defaults, whatever the last one was set to |
| EngineAgent.FirstLoadAppliesDefaults | server/sttd_engine_agent.c:691-725 | and so does the first engine when it is first loaded |
| EngineAgent.ApplyKeepsOk | server/sttd_engine_agent.c:605-785 | every agent operation, whatever the plug-in answers, keeps: the engine's value of a supported option is the cached one or the default; a loaded engine accepts the default language; defaults and language are the persisted ones |
| EngineAgent.CallsTracked | server/sttd_engine_agent.c:977-1106 | the record of calls that reached the plug-in in the wrong state, which the usage theorems are about, is true to the calls: starts while in recognition, stops and cancels out of it |
| EngineAgent.StartAppliesOptions | server/sttd_engine_agent.c:873-1023 | AUTO runs a supported option at the default; an explicit choice is held exactly when it differs from the cache or the cache agrees with the engine |
| EngineAgent.OptionsUpTo | server/sttd_engine_agent.c:873-975 | profanity, punctuation and silence are set in this order up to the first the engine turns down; those before are as asked, in cache and engine, that one and those behind as before |
| EngineAgent.OnlySettersBreakStep | server/sttd_engine_agent.c:691-725 | only an accepted setter parts the cache from the engine |
| EngineAgent.SetterBreaksStep | server/sttd_engine_agent.c:1527-1558 | and it does exactly when the option is supported and the value is not the cached one |
| Runs.StartsUseDefaults | server/sttd_engine_agent.c:873-975 | in every run, a start with AUTO runs the engine at the defaults of that moment |
| Runs.StartsUseChoices | server/sttd_engine_agent.c:873-975 | until some setter succeeds, every session runs exactly as asked |
| Options.StepInStep | server/sttd_engine_agent.c:873-975 | cache and engine stay in step through every step but an accepted setter |
| Options.StartUsesDefaults | server/sttd_engine_agent.c:977-1023 | AUTO means the present default in any state the daemon can be in |
| Options.StartUsesChoices | server/sttd_engine_agent.c:977-1023 | an explicit choice is what the engine runs with while cache and engine are in step |
| Options.StartSpeaks | server/sttd_engine_agent.c:995-1010 | a session runs in the language asked for; "default" is the persisted default, which the engine accepts |
| Options.DefaultReachesEngine | server/sttd_engine_agent.c:1527-1662 | a default set by the setting application is what the engine runs with in the next session left to AUTO |
| Options.DefaultSetWhen | server/sttd_server.c:941-1039 | a request for an option default succeeds if and only if a registered setting client makes it and the loaded engine takes it; then that option's value, default and persisted integer change and no other; otherwise nothing |
| Options.LanguageSetWhen | server/sttd_server.c:896-916 | a request for a default language succeeds if and only if a registered setting client makes it and the loaded engine has a validator and takes the language; then it is the default and persisted; otherwise nothing changes |
| Options.LanguageStays | server/sttd_engine_agent.c:1469-1503 | no other step changes the default language, but a load of an engine that does not take it |
| Runs.LanguageReachesEngine | server/sttd_engine_agent.c:995-1010 | in every run: a language set by the setting application is persisted and is what each later session that asks for "default" is heard in, until the next one is set or an engine loaded that does not take it |
| Runs.AlwaysTimely | server/sttd_server.c:674-684 | over runs whose main loop does not oversleep: every processing client owns a live time-out due within 15.5 s |
| Runs.BoundedProcessing | server/sttd_server.c:617-644 | no client is in processing for more than 15.5 s |
| Runs.TimedOutInTime | server/sttd_server.c:681-684 | a client that enters processing when no earlier time-out is live is timed out after exactly 15.5 s |
| Timing.EarlierTimeoutEnds | server/sttd_server.c:617-644 | with an earlier one live it is timed out before its time; waiting for that one is punctual when nothing else is due before it |
| Stale.StaleTimeoutReached | server/sttd_server.c:378-411 | a punctual run from start-up reaches such a state: two clients register, one starts, stops and leaves, the other starts and stops |
| Timing.EntersWithFullTime | server/sttd_server.c:681-684 | however a client comes to be in processing, its time-out is 15.5 s away |
| Timing.StepAddsNoTimeout | server/sttd_server.c:647-687 | while somebody is in processing no time-out is added |
| Timing.StepTimed | server/sttd_server.c:30-164 | the step behind both: time-outs stay live and deadlines do not move, whatever stale timers fire |
| Leftovers.ResultTimers | server/sttd_server.c:104-116 | after a report that a loaded engine makes for a client, that client's timer is gone; every other timer, and without such a report every timer, is as it was |
| Leftovers.CancelTimers | server/sttd_server.c:715-720 | after a successful cancel the client's timer is gone and every other timer is as it was; a refused one leaves all |
| Leftovers.StopTimers | server/sttd_server.c:655-687 | a stop takes its client's watchdog away and puts one time-out in its place; one that the engine fails leaves the watchdog |
| Leftovers.FiresOnce | server/sttd_server.c:516-547 | a timer that fires is gone, but for the watchdog of a client found in order, which comes due one period after it was due |
| Leftovers.StepOwned | server/sttd_server.c:36-723 | a step from a state in which every live time-out (or watchdog) is that of the client now in processing (or recording) leads to one if and only if it does not remove that client by finalizing, cleanup or a stop by silence it does not take (or fail its stop) |
| Leftovers.AlwaysOwned | server/sttd_server.c:111-116 | over runs without such a step, whatever the devices do: every live time-out is that of the client now in processing, and every live watchdog that of the client now recording |
| Leftovers.LeftWhen | server/sttd_server.c:378-411 | on a punctual run the first time-out left behind is left by the first such step and by nothing else |
| Leftovers.TimedOutInFull | server/sttd_server.c:617-644 | over runs that leave no time-out behind, whoever is timed out is timed out after exactly 15.5 s, whatever results, cancels and earlier time-outs went before |
| Leftovers.CheckedInFull | server/sttd_server.c:516-547 | over runs that leave no watchdog behind, a recording client is asked for its state exactly 15.5 s after its start or the last time it was asked |
| Runs.AlwaysWatched | server/sttd_server.c:609-612 | a recording client is under a live watchdog due within 15.5 s, if the watchdog's cancels reach the engine |
| Runs.RecordingIsChecked | server/sttd_server.c:516-547 | no client records for more than 15.5 s without being asked for its state |
| Timing.StepWatched | server/sttd_server.c:516-547 | the step behind both |
| Cleanup.CleanupFilters | server/sttd_server.c:258-291 | one pass leaves exactly the clients whose hello is not answered with 0, in their order |
| Cleanup.CleanupReleases | server/sttd_server.c:391-394 | if the session's holder goes, nothing records and the engine is not in recognition |
| Cleanup.CleanupUnloads | server/sttd_server.c:401-408 | a pass that removes the last clients leaves the engine unloaded |
| Agreement.AlwaysAgrees | client/stt.c:464-620 | in every reachable state of daemon, handles and messages, with ids used again and again: a live handle's state is the daemon's with nothing in flight, or the handle is processing, the daemon READY and one result in flight; CREATED exactly if not registered |
| Agreement.ResultsReachProcessing | client/stt.c:766-818 | a result only reaches a client that is processing |
| Composition.StepAgrees | client/stt.c:112-254 | the step behind both, for every request, crash, delivery and daemon event in any order |
| Composition.SuccessMeansMoved | client/stt.c:464-620 | in any agreeing state an application is told of success if and only if its handle moved to the state it asked for, and if and only if the daemon's record of it did |
| Composition.ChangesRemembered | client/stt.c:739-764 | in any agreeing state and for any action: a live handle whose state changes remembers the state it was in, which the application is told, and one whose state does not change stays as it is |
| Agreement.CreateAgreesWhen | client/stt_client.c:40-86 | a new handle starts in agreement if and only if the daemon has forgotten its id and nothing is on its way to it |
| Agreement.LibraryIdsAreFree | client/stt_client.c:28-86 | a library whose live handles, the new one included, are among its last 999 allocations hands out an id of no live handle of any process, on a handle in CREATED |
| Composition.DeliverKeeps | client/stt.c:766-818 | a delivery finds its client processing and ends in agreement |
| Composition.TriesAreAttempts | client/stt.c:138-168 | the daemon is asked to initialize as the client's retry loop says |
| Composition.CheckKeeps | server/sttd_server.c:516-547 | in an agreeing system the watchdog only removes clients whose process is gone |
| Composition.SilenceKeeps | client/stt.c:872-892 | a stop by silence moves both sides, or drops a client that is gone |
| Agreement.StopAgreesWhen | server/sttd_server.c:665-672 | a stop keeps agreement if and only if the engine's stop succeeds |
| Agreement.ResultAgreesWhen | server/sttd_server.c:118-155 | a result keeps agreement if and only if its client is READY, or is processing and the result can be sent |
| Agreement.TimeoutAgreesWhen | server/sttd_server.c:617-644 | a time-out keeps agreement if and only if its message can be sent |
| Agreement.CheckAgreesWhen | server/sttd_server.c:516-547 | the watchdog keeps a recording client in agreement if and only if it answers in time; one that does not is forgotten while it lives |
| Agreement.SilenceAgreesWhen | server/sttd_server.c:36-61 | a stop by silence keeps agreement if and only if the engine stops and the client takes its new state |
| Agreement.CleanupAgreesWhen | server/sttd_server.c:258-291 | a cleanup pass keeps a registered live client in agreement if and only if its hello is not answered with 0, as one that does not arrive is taken to be |
| Agreement.WatchdogConverges | server/sttd_server.c:516-547 | from any state of the client, answering or not: one check settles it if and only if it has no pid, does not answer, is recording, or the cancel (and for a processing client the push) gets through; nobody else changes on either side |
| Effects.InitializeStatus | server/sttd_server.c:297-376 | registration puts exactly one client, unknown before, into READY |
| Effects.FinalizeStatus | server/sttd_server.c:378-411 | a client that leaves is the only one whose record changes |
| Effects.StartStatus | server/sttd_server.c:549-615 | a start moves its own client to RECORDING or nothing |
| Effects.StopStatus | server/sttd_server.c:647-687 | a stop moves its own client to PROCESSING, or to READY when the engine's stop fails |
| Effects.CancelStatus | server/sttd_server.c:689-723 | a cancel succeeds exactly on a registered client that is not READY with an engine that obeys, and moves only that client |
| Effects.ResultStatus | server/sttd_server.c:93-164 | a result is sent exactly when its client was processing and it has a deliverable shape; its client ends READY, or forgotten exactly if a string is missing and not even the error can be told |
| Effects.TimeoutStatus | server/sttd_server.c:617-644 | the time-out moves its client to READY in any case, and sends it one result if that can be sent |
| Effects.CleanupStatus | server/sttd_server.c:258-291 | a client that answers is untouched by a cleanup pass |
| Answers.InitializeAnswers | server/sttd_server.c:297-376 | which refusal has which reason: no engine to be found, known already, not loaded or no known format; on success the recorder has the engine's format |
| Answers.FinalizeAnswers | server/sttd_server.c:378-411 | an unknown client is refused; one that is READY leaves recorder and engine alone unless it is the last user |
| Answers.StartAnswers | server/sttd_server.c:549-615 | each refusal has its one reason, in the source's order: unknown, not READY, somebody active, no network; success if and only if none applies and engine and recorder start |
| Answers.StopAnswers | server/sttd_server.c:647-687 | unknown, not recording, failed by the engine, or stopped |
| Answers.CancelAnswers | server/sttd_server.c:689-723 | unknown, READY, refused by the engine, or cancelled; only a recording client's cancel reaches the recorder, and does so even if the engine then refuses |
| Answers.StrangersRefused | server/sttd_server.c:829-1039 | a setting request of an unregistered pid is refused and changes nothing |
| Answers.SwitchAnswers | server/sttd_engine_agent.c:1304-1371 | a switch succeeds if and only if there is a current engine and the id begins with its id, or begins a listed one that loads |
| Answers.ListAnswers | server/sttd_engine_agent.c:1238-1285 | a list request succeeds if and only if the engine is loaded and the directory is not empty; a loaded engine's request leaves the list as found |
| Silence.SilenceQueues | server/sttd_engine_agent.c:1786-1803 | a report of silence adds one stop by silence, due now, if and only if the engine is loaded, its cached silence option is on and a client records; otherwise nothing changes |
| Silence.AudioQueues | server/sttd_server.c:63-91 | and so does a recorded chunk that the engine does not take |
| Silence.ReplayQueues | server/sttd_recorder.c:444-487 | and so does the replay of a recorded file longer than the buffers the engine takes |
| Silence.CamcorderLimit | server/sttd_recorder.c:117-130 | a camcorder at its limit stops the recorder as a client's stop would, replay included, without ending the session |
| Silence.CamcorderError | server/sttd_recorder.c:123-134 | a camcorder in error is cancelled and nothing else changes |
| Silence.SilenceEnds | server/sttd_server.c:36-61 | from the report to the end: client and daemon are both in PROCESSING after the queued stop if and only if the engine stops and the client takes its new state |
| Messages.RoundTrip | server/sttd_dbus.c:179-241 | what the client's handler gets is what the daemon sent, absent strings as "None", the empty list as count 0; nothing for an id that is not positive |
| Messages.AlikeWhen | server/sttd_dbus.c:182-206 | two messages look alike if and only if they differ in nothing but an absent string against "None" |
| Messages.ResultArrives | server/sttd_server.c:118-150 | what the engine reports for a processing client is what the client's handler is called with, one message, behind the earlier ones |
| Messages.TimeoutArrives | server/sttd_server.c:630-637 | a client that waited in vain is told so |
| Messages.WriteResult | server/sttd_dbus.c:179-235 | the appending loop produces the message, and fails exactly on an absent string |
| Messages.ReadResult | client/stt_dbus.c:182-246 | the client's walk over any arguments decodes them |
| Recorder.ReplayDelivers | server/sttd_recorder.c:444-487 | what reached the engine is the file up to and including the refused buffer, and all of it when none is refused |
| Recorder.RefusedWhen | server/sttd_recorder.c:468-482 | the engine turns a buffer down if and only if the file is longer than the buffers it takes |
| Recorder.StartHalts | server/sttd_recorder.c:329-352 | a start that fails has halted the camcorder if and only if the flag said recording, the camcorder could be set up and its cancel got through; the flag follows success alone |
| Recorder.Chunks | server/sttd_recorder.c:468-482 | buffers hold 1 to 1024 bytes, all but the last 1024 |
| Recorder.RecorderObject.SendBufFromFile | server/sttd_recorder.c:444-487 | the loop, which sees the end only after a short read, terminates and hands over exactly those buffers |
| Recorder.RecorderObject.Read | server/sttd_recorder.c:468-482 | a read fills the buffer with the next bytes of the file and notices the end only when it falls short |
| Recorder.RecorderObject.Set | server/sttd_recorder.c:533-556 | the format changes and a running recording's camcorder is cancelled; the state flag stays |
| Recorder.RecorderObject.Start | server/sttd_recorder.c:329-352 | flag and camcorder go up exactly if the camcorder records; a recording under way is cancelled first, once the camcorder is set up |
| Recorder.RecorderObject.Cancel | server/sttd_recorder.c:617-636 | the flag falls exactly if the camcorder was cancelled |
| Recorder.RecorderObject.Stop | server/sttd_recorder.c:639-664 | the flag falls unless no callback is set or the recorded file is missing, whatever the camcorder answers |
| Config.RoundTrip | server/sttd_config.c:34-144 | scanning what save prints restores all five fields, for any words and 32-bit numbers, over any earlier values |
| Config.CollectsPrefix | server/sttd_config.c:84-138 | on any text a field is taken exactly when its key and all before it are met, and kept otherwise; what is taken then: StringsTaken, NumbersTaken |
| Config.StringRead | server/sttd_config.c:86-98 | one read of a key and a word, on any text: the word that stands there, and otherwise the word read before |
| Config.ReadsWordLine | server/sttd_config.c:86-98 | key, blanks and a word are read as they stand, and the rest is left |
| Config.StringsTaken | server/sttd_config.c:84-102 | over any earlier values and any text, each string whose key is met is the word on its line, or the last word read before it, empty at first |
| Config.MissingWordRepeats | server/sttd_config.c:94-98 | language and engine id come out alike if and only if the language line has no word or has the engine id for one |
| Config.LanguageTakesEngineId | server/sttd_config.c:86-98 | the carry-over at work: a text that ends after the language key loads the engine id as the language |
| Config.NumberRead | server/sttd_config.c:104-138 | one read of a key and a number, on any text: the number that stands there, and otherwise the integer read before |
| Config.ReadsLine | server/sttd_config.c:104-138 | key, blanks, perhaps a sign, and digits are read as that number in 32 bits, and the rest is left |
| Config.NumbersTaken | server/sttd_config.c:84-138 | over any earlier values and any text, each number whose key is met is the one on its line, or the last integer read before it, 0 at first |
| Config.UnreadableNumberKeeps | server/sttd_config.c:104-138 | an earlier value survives a line without a number if and only if it is the last integer read |
| Config.LoadedIsPrintable | server/sttd_config.c:84-138 | whatever the text, a configuration with both strings can be printed and read back |
| Config.RepairIsIdempotent | server/sttd_config.c:65-157 | a rewritten file loads to the same configuration and is not rewritten again, if both strings were loaded |
| Config.RepairExactly | server/sttd_config.c:65-157 | the rewritten file gives the configuration back if and only if both strings were loaded |
| Restart.RestartKeeps | server/sttd_config.c:34-157 | the file any run leaves, once words stand in it, loads to the persisted values of its last state; a daemon started on it has the same language and defaults, and the same persisted values if the engine is still there |
| Restart.RestartFindsEngine | server/sttd_engine_agent.c:232-320 | and the same current engine, over runs with prefix-free ids |
| Restart.DaemonRestarts | server/sttd_config.c:34-157 | the same of the running daemon and the file on its disk at any time, if it can write there |
| Config.MissingStringsComeBackDifferent | server/sttd_config.c:46-49 | without both strings it does not |
| Config.UnreadableNumberIsZero | server/sttd_config.c:104-107 | the loss at work: after both strings, any silence line without a number turns the default 1 into 0 |
| Config.ConfigFile.SaveFile | server/sttd_config.c:34-63 | the file holds the printed values if it can be opened |
| Config.ConfigFile.ReadFields | server/sttd_config.c:84-138 | the five reads store the accepted prefix of the fields |
| Config.ConfigFile.LoadFile | server/sttd_config.c:65-144 | the user's file, or else the shipped one, is loaded; the user's file is rewritten unless all keys were met |
| Config.ConfigFile.constructor | server/sttd_config.c:146-157 | start-up loads over the initial values and leaves the repaired file |
| Config.ConfigFile.SetEngine | server/sttd_config.c:174-185 | one field changes and the file follows |
| Config.ConfigFile.SetLanguage | server/sttd_config.c:197-210 | one field changes and the file follows |
| Config.ConfigFile.SetSilence | server/sttd_config.c:222-227 | one field changes and the file follows |
| Config.ConfigFile.SetProfanity | server/sttd_config.c:239-244 | one field changes and the file follows |
| Config.ConfigFile.SetPunctuation | server/sttd_config.c:256-261 | one field changes and the file follows |
| ClientData.NobodyActive | server/sttd_server.c:565-573 | the two guards of a start together mean that everybody is READY |
| ClientData.CurrentIs | server/sttd_client_data.c:223-265 | the current client of a state is registered and in that state |
| ClientData.ActiveIsCurrent | server/sttd_client_data.c:223-265 | whoever is not READY is the current client of its state |
| ClientData.AfterWithState | server/sttd_client_data.c:180-197 | a state change shows for its uid and no other |
| ClientData.AfterWithout | server/sttd_client_data.c:134-160 | a removal shows for its uid and no other |
| ClientData.AfterPlus | server/sttd_client_data.c:101-132 | a registration shows for its uid and no other, and keeps the invariants |
| ClientData.AfterSettingPlus | server/sttd_client_data.c:362-391 | a setting registration adds its pid and no other, and none twice |
| ClientData.AfterSettingWithout | server/sttd_client_data.c:393-419 | unlinking the first record with a pid unregisters that pid and no other |
| Settings.RegisteredWhen | server/sttd_server.c:730-763 | which refusal has which reason: no engine to be found, registered already, or a first user whose engine does not load |
| Settings.StepSettings | server/sttd_server.c:730-782 | after any step the registered pids are those before without the one that leaves, and the one whose registration succeeds |
| Settings.AlwaysOnce | server/sttd_client_data.c:362-391 | in every run no pid is registered twice, so that leaving once is enough |
| ClientData.ClientList.GetItem | server/sttd_client_data.c:79-99 | the walk finds the first record with the uid |
| ClientData.ClientList.Add | server/sttd_client_data.c:101-132 | a new record in READY at the end, or an error for a known uid |
| ClientData.ClientList.Delete | server/sttd_client_data.c:134-160 | the record is unlinked and the others keep their order |
| ClientData.ClientList.GetState | server/sttd_client_data.c:162-178 | the state of a known uid |
| ClientData.ClientList.SetState | server/sttd_client_data.c:180-197 | one record's state changes in place |
| ClientData.ClientList.GetRefCount | server/sttd_client_data.c:199-205 | clients and setting clients together |
| ClientData.ClientList.GetPid | server/sttd_client_data.c:207-221 | the pid, negative for an unknown uid |
| ClientData.ClientList.GetCurrent | server/sttd_client_data.c:223-265 | the first client in a state, or -1 |
| ClientData.ClientList.SetTimer | server/sttd_client_data.c:267-284 | one record's timer changes in place |
| ClientData.ClientList.GetList | server/sttd_client_data.c:306-334 | a fresh array of all uids in order, and an error for the empty list |
| ClientData.ClientList.SettingAdd | server/sttd_client_data.c:362-391 | the pid at the end, once |
| ClientData.ClientList.SettingDelete | server/sttd_client_data.c:393-419 | the first record with the pid is unlinked |
| ClientData.ClientList.SettingIs | server/sttd_client_data.c:421-429 | whether the pid is listed |
| EngineAgent.EngineHost.CheckEngineId | server/sttd_engine_agent.c:322-348 | whether some listed id begins the given one |
| EngineAgent.EngineHost.SetCurrentEngine | server/sttd_engine_agent.c:545-616 | new state and return code are the specification's; what that means: Network.ChoiceTakes, EngineAgent.SwitchAppliesDefaults |
| EngineAgent.EngineHost.UpdateEngineList | server/sttd_engine_agent.c:434-543 | the list is rebuilt from the directory |
| EngineAgent.EngineHost.InitializeCurrentEngine | server/sttd_engine_agent.c:232-320 | new state and return code are the specification's; what that means: Network.FirstChoice, EngineAgent.InitializationAgrees |
| EngineAgent.EngineHost.LoadCurrentEngine | server/sttd_engine_agent.c:618-790 | new state and return code are the specification's, of which LoadOutcome says when it succeeds and ApplyKeepsOk that the engine ends accepting the default language with its options in place |
| EngineAgent.EngineHost.UnloadCurrentEngine | server/sttd_engine_agent.c:792-828 | new state and return code are the specification's: unloaded and idle, everything else as before |
| EngineAgent.EngineHost.SetOption | server/sttd_engine_agent.c:873-975 | the option records after the three calls and the verdict are the specification's, whose meaning OptionsUpTo and StartAppliesOptions give; nothing else changes |
| EngineAgent.EngineHost.Start | server/sttd_engine_agent.c:977-1023 | new state and return code are the specification's, of which StartAppliesOptions and Devices.StartOwners speak |
| EngineAgent.EngineHost.Stop | server/sttd_engine_agent.c:1056-1080 | new state and return code are the specification's: an accepting engine is at work on the result, a refusing one idle or not as it answers |
| EngineAgent.EngineHost.Cancel | server/sttd_engine_agent.c:1082-1106 | new state and return code are the specification's: idle exactly when a loaded engine obeys |
| EngineAgent.EngineHost.Report | server/sttd_engine_agent.c:1755-1769 | a result is passed on only by a loaded engine, which is idle after it if its recognition is over |
| EngineAgent.EngineHost.SettingSetEngine | server/sttd_engine_agent.c:1304-1371 | new state and return code are the specification's, of which UnknownSwitch, KnownSwitch and SwitchAgrees speak |
| EngineAgent.EngineHost.SettingSetLang | server/sttd_engine_agent.c:1469-1503 | new state and return code are the specification's; what that means: Options.LanguageSetWhen, Runs.LanguageReachesEngine |
| EngineAgent.EngineHost.SettingSetDefault | server/sttd_engine_agent.c:1527-1662 | new state and return code are the specification's; what that means: Options.DefaultSetWhen, Options.DefaultReachesEngine |
| EngineAgent.EngineHost.SettingRefreshList | server/sttd_engine_agent.c:1238-1285 | a loaded engine's list request rereads the directory and returns the ids found, in order, or none on failure |
| EngineAgent.EngineHost.GetOptionSupported | server/sttd_engine_agent.c:845-867 | the options the engine took when it was loaded (SupportedAfterLoad), or an error and none |
| Server.SttServer.Handle | server/sttd_server.c:36-1039 | whatever reaches the daemon, its handler makes of client list, engine, recorder, timers and messages what the transition function says, and leaves a file that a restart loads back |
| Server.SttServer.constructor | server/sttd_server.c:223-256 | a daemon that has just started is in the initial state of every run |
| Server.SttServer.Initialize | server/sttd_server.c:297-376 | new state and return code are the specification's, and the client is told the supported options, or none when refused; what that means: Answers.InitializeAnswers, Effects.InitializeStatus, Runs.SupportAsLoaded, Camcorder.StepInTune |
| Server.SttServer.Finalize | server/sttd_server.c:378-411 | new state and return code are the specification's; what that means: Answers.FinalizeAnswers, Effects.FinalizeStatus, Devices.FinalizeOwners, Engines.FinalizeUnloads |
| Server.SttServer.CheckStart | server/sttd_server.c:552-581 | the guards of a start, in order; what they mean: Answers.StartAnswers, Network.StartNeedsNetwork |
| Server.SttServer.Start | server/sttd_server.c:549-615 | new state and return code are the specification's; what that means: Answers.StartAnswers, Sessions.StartSession, Devices.StartOwners, Options.StartUsesDefaults, Leftovers.CheckedInFull |
| Server.SttServer.Stop | server/sttd_server.c:647-687 | new state and return code are the specification's; what that means: Answers.StopAnswers, Effects.StopStatus, Leftovers.StopTimers, Timing.StepTimed |
| Server.SttServer.Cancel | server/sttd_server.c:689-723 | new state and return code are the specification's; what that means: Answers.CancelAnswers, Leftovers.CancelTimers, Effects.CancelStatus |
| Server.SttServer.OnResult | server/sttd_server.c:93-164 | the new state is the specification's; what that means: Leftovers.ResultTimers, Leftovers.TimedOutInFull, Effects.ResultStatus, Messages.ResultArrives |
| Server.SttServer.SendResult | server/sttd_dbus.c:151-252 | sends the strings in order; an absent one turns into an error signal and, if that fails too, drops the client; what that means: Effects.ResultStatus, Messages.ResultArrives |
| Server.SttServer.OnSilence | server/sttd_server.c:194-217 | the new state is the specification's; what that means: Silence.SilenceQueues, Silence.SilenceEnds |
| Server.SttServer.OnAudio | server/sttd_server.c:63-91 | the new state is the specification's; what that means: Silence.AudioQueues, Silence.SilenceEnds |
| Server.SttServer.TimeOutForProcessing | server/sttd_server.c:617-644 | the new state is the specification's; what that means: Effects.TimeoutStatus, Messages.TimeoutArrives, Runs.BoundedProcessing |
| Server.SttServer.CheckRecordingState | server/sttd_server.c:516-547 | new state, renewal and push are the specification's; what that means: Agreement.WatchdogConverges, Leftovers.CheckedInFull |
| Server.SttServer.StopBySilenceNow | server/sttd_server.c:36-61 | new state and push are the specification's; what that means: Sessions.SilenceSession, Composition.SilenceKeeps |
| Server.SttServer.SendHello | server/sttd_dbus.c:27-85 | a client whose pid is not known is not asked |
| Server.SttServer.SendSetState | server/sttd_dbus.c:372-432 | succeeds exactly when the client takes the state |
| Server.SttServer.CleanupClient | server/sttd_server.c:258-291 | the loop over the snapshot leaves what the recursive pass leaves, of which Cleanup.CleanupFilters says what that is |
| Server.SttServer.SettingInitialize | server/sttd_server.c:730-763 | new state and return code are the specification's; what that means: Settings.RegisteredWhen, Engines.StepLoaded |
| Server.SttServer.SettingFinalize | server/sttd_server.c:765-782 | new state and return code are the specification's; what that means: Settings.StepSettings, Engines.SettingFinalizeUnloads |
| Server.SttServer.SettingSetEngine | server/sttd_server.c:829-850 | only a registered setting client switches (Answers.StrangersRefused); what a switch means: EngineAgent.KnownSwitch, EngineAgent.UnknownSwitch |
| Server.SttServer.SettingSetLang | server/sttd_server.c:896-916 | new state and return code are the specification's; what that means: Options.LanguageSetWhen, Runs.LanguageReachesEngine |
| Server.SttServer.SettingSetDefault | server/sttd_server.c:941-1039 | new state and return code are the specification's; what that means: Options.DefaultSetWhen, Options.DefaultReachesEngine |
| Server.SttServer.SettingGetEngineList | server/sttd_server.c:784-804 | only a registered setting client has the directory read again (Answers.ListAnswers), and gets the ids found, in order |
| ClientLibrary.UidsMeet | client/stt_client.c:28-38 | ids lie in their process's range; two meet if and only if they are of one process and a multiple of 999 allocations apart |
| ClientLibrary.UidsFit | client/stt_client.c:28-38 | all ids are positive 32-bit numbers if and only if the pid is at most 2147482 |
| ClientLibrary.LookupAgrees | client/stt_client.c:129-187 | every live handle's id finds that handle if and only if no two are a multiple of 999 allocations apart |
| ClientLibrary.RecentApart | client/stt_client.c:129-187 | so it is while all live handles are among the last 999 allocated |
| ClientLibrary.NewIdIsFree | client/stt_client.c:28-86 | while that includes the handle about to be made, its id is free |
| ClientLibrary.NewIsExtension | client/stt_client.c:40-86 | an allocation keeps lookups right if and only if its id is not in use, and then extends the map of handles |
| ClientLibrary.DropIsRemoval | client/stt_client.c:88-126 | destroying a handle removes it from the map of handles and keeps lookups right |
| ClientLibrary.PutIsUpdate | client/stt_client.c:129-187 | changing a handle found by its id updates the map of handles |
| ClientLibrary.CalledIsUpdate | client/stt.c:464-620 | a request changes the handle it names and no other, and answers as that handle does |
| ClientLibrary.AnswerIs | client/stt.c:464-620 | a request is answered 0 if and only if the handle is live, in a state that allows it, and the daemon answered 0 (or it is an unprepare), that is, exactly if the handle moved to the state asked for; a live handle that allows it gets the daemon's own code, others their own two |
| ClientLibrary.ConnectedWhen | client/stt.c:112-187 | the retry loop connects if and only if one of its three attempts succeeds before any that finds no engine; it times out if and only if all three fail otherwise |
| ClientLibrary.Library.GenerateUid | client/stt_client.c:28-38 | the counter that wraps after 999 gives the id of the n-th allocation |
| ClientLibrary.Library.New | client/stt_client.c:40-86 | a handle in CREATED at the end of the list |
| ClientLibrary.Library.Get | client/stt_client.c:129-157 | the walk finds the first handle with the id |
| ClientLibrary.Library.Destroy | client/stt.c:62-110 | the handle is unlinked; the daemon is asked to forget it exactly if it is not in CREATED |
| ClientLibrary.Library.Connect | client/stt.c:112-187 | READY exactly if the daemon is there and an attempt connects; the callback is kept for another round exactly if the handle or the daemon is missing |
| ClientLibrary.Library.Unprepare | client/stt.c:220-254 | back to CREATED from READY, whatever the daemon answers |
| ClientLibrary.Library.Start | client/stt.c:464-521 | new list and answer are the specification's: RECORDING, and told so, exactly if the handle was READY and the daemon agrees; what that means: AnswerIs, Composition.SuccessMeansMoved |
| ClientLibrary.Library.Stop | client/stt.c:523-570 | new list and answer are the specification's: PROCESSING, and told so, exactly if the handle was RECORDING and the daemon agrees; what that means: AnswerIs, Composition.SuccessMeansMoved |
| ClientLibrary.Library.Cancel | client/stt.c:573-620 | new list and answer are the specification's: READY, and told so, exactly if the handle was RECORDING or PROCESSING and the daemon agrees; what that means: AnswerIs, Composition.SuccessMeansMoved |
| ClientLibrary.Library.CbResult | client/stt.c:766-818 | a live handle becomes READY, remembering the state before |
| ClientLibrary.Library.CbSetState | client/stt.c:872-892 | a live handle takes the state it is told, and only a change is remembered |

## Left out

- The bus itself: connections, marshalling, service names, waiting times. Only success, failure and the order of arguments are kept; `sttd_dbus_server.c` and the request wrappers of `stt_dbus.c` are represented by the requests they carry.
- Requests and their answers are one step: an answer that is lost after the daemon acted is not modelled (the assumption that calls are answered in time).
- The stop-by-daemon message (server/sttd_dbus_server.c:1528-1570): nothing sends it any more.
- Partial results, the recording volume, language lists, engine settings and the other getters: they change no modelled state.
- The client's option setters, callback registration and option-range checks: single-branch facts; a start passes arbitrary option values.
- `client/stt_setting.c` and `client/stt_setting_dbus.c`: thin forwards; their requests are the setting events of the daemon.
- Daemon spawning, the process list, signals, the network probe, the daemon's main function: the network is an arbitrary answer.
- The camcorder beyond whether it runs, its attributes, channels and sampling rate: its calls succeed or fail arbitrarily, and one that fails leaves it as it was. The channel number that registration reads uninitialized (server/sttd_server.c:349) has no further effect in the model.
- Dynamic linking and directory scanning: a load and a scan meet arbitrary answers. Engine names, library paths, setting names and the agent's release are not kept.
- `stt_prepare` (client/stt.c:190-218) only queues the connection callback for a handle in CREATED; the model lets the callback run on any live handle at any time.
- Memory: allocation failure, leaks, dangling timer pointers. Timers have ids that are never reused.
- Engine threads: a callback is a step of its own, after the call that caused it.
- The engine plug-in is what the agent can observe of it: whether it is in recognition, its option values, the languages it accepts.
- Config: tokens longer than the 255 characters the scanner's buffers hold are read whole; overrunning them is undefined in the source. A number beyond 64 bits saturates and is cut to 32 bits, as common C libraries do.
- A daemon whose configuration lacks the engine id or the language copies a null pointer at start-up; `EngineHost.constructor` therefore requires both.
- Server.SttServer.CleanupClient: one pass is given one answer per client; further answers do not exist.
- Runs.AlwaysTimely: assumes that time does not pass beyond a timer that is due (`Punctual`); how late the main loop may be is not modelled.
- Composition.StepAgrees: assumes of a new handle that no live handle has its id (`Agreement.LibraryIdsAreFree` says when the libraries see to that), that the daemon does not list the id any more, and that no result is on its way to it (`Agreement.CreateAgreesWhen`: it must be so).
- The error signal that stands in for a result with an absent string fails only when its message cannot be created (server/sttd_dbus.c:344-347); then, and only then, the client's record is dropped.
