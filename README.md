# AngelScript runner of TClient, in Dafny

This project models the part of TClient's `angel` console command that runs
one AngelScript file and proves properties of that model. The command reads
the file, creates a script engine and registers the host API. It then either
loads the module's bytecode from a process-wide cache keyed by file name or
compiles the source and saves the bytecode back into that cache. Next it
looks up one of three entry functions, executes it in a context, and always
shuts the engine down. The model also covers the pieces the engine calls
back into:

- the binary stream used to save and load bytecode;
- the reference-counted string factory;
- the `state(name)` query that scripts use to read the client's state.

Modules:

- `Common`: `Option`, `Result`, bytes, 32-bit unsigned sizes, the engine's
  status codes.
- `BytecodeStream`: `CBytecodeStream` as a class.
  - Its `Write` and `Read` are proved against the bytes they append and
    deliver.
  - `ReadSequence` and `Flatten` describe a whole load and a whole save.
  - The save/load round trip is proved for every chunking.
- `StringFactory`: `CStringFactory` as a class over its reference-count
  table.
  - The table update is proved against the pure `Release` function.
  - Lemmas about `Release` give the lifecycle of one literal.
- `StateQuery`: `StateStr` is a function of a snapshot of the host values it
  reads (`HostSnapshot`).
  - An unknown name is the error `invalid_argument` carries.
  - The queries' properties are lemmas.
- `ScriptRunner`: `CAngelScriptRunner::Run` as imperative methods over the
  cache (`Runtime.cache`, which is `s_Cache`) and the active-runner slot
  (`Runtime.activeRunner`, which is `s_pActiveRunner`).
  - The engine is a datatype of the answers it gives (`EngineModel`).
  - A run returns the sequence of calls it makes into the engine
    (`EngineCall`), apart from the calls that read an exception's details
    for the log.
  - `Runner.Run` is proved equal to the pure specification `RunSpec` in
    its result, calls, cache and active-runner slot. `RunSpec` is built from
    `TryBlock`, `ModuleAndEntry`, `ObtainModule` and `ExecuteEntry`, and the
    methods `TryBlockStep`, `ModuleAndEntryStep`, `ObtainModuleStep`,
    `ExecuteEntryStep` and `SaveIntoCache` are proved equal to those
    functions and to `CacheAfterBuild`.
  - `ExecScript` is proved equal to `RunSpec` in its result and cache, and
    in which of the three states it leaves the active-runner slot.
  - `ModuleName` is proved equal to `ModuleNameOf`, `LoadByteCodeFrom` to
    `LoadSucceeds` and `ReadSequence`, `SaveByteCodeTo` to `Flatten` of the
    saved chunks, and `FindEntryFunction` to `EntryFunction`.
- `RunProperties`: what a run promises, as lemmas over `RunSpec`:
  - when the cache is trusted and how a run changes it;
  - which entry function runs;
  - exactly when a run succeeds;
  - when the active runner is left set and when a context is released;
  - that the engine is shut down exactly once, as the last call.

Inputs that come from outside the component are parameters:

- the file's contents, where `None` means the file could not be read;
- the SHA-256 function, as an uninterpreted `hash`;
- the engine's behaviour;
- the host values that `StateStr` reads.

## Model

| member | source | states |
|---|---|---|
| BytecodeStream.Stream.Write | src/game/client/components/tclient/angelscript.cpp:40-47 | without an output vector the result is `asERROR`; otherwise `asSUCCESS`, and the vector becomes its old bytes followed by exactly the written bytes |
| BytecodeStream.Stream.Read | src/game/client/components/tclient/angelscript.cpp:50-59 | succeeds exactly when there is an input buffer and `offset + size` does not pass the input size; on success it delivers the `size` bytes at the cursor and advances the cursor by `size`; on failure it returns `asERROR` and leaves the cursor where it was |
| BytecodeStream.Stream.ForRead | src/game/client/components/tclient/angelscript.cpp:405-407 | a read-mode stream has no output vector, reads the whole buffer it is given, and starts with its cursor at 0 |
| BytecodeStream.Stream.ForWrite | src/game/client/components/tclient/angelscript.cpp:436-437 | a write-mode stream appends to the given vector and has no input buffer |
| BytecodeStream.ReadSequence | src/game/client/components/tclient/angelscript.cpp:50-59 | a sequence of reads from a cursor succeeds exactly when the requested sizes add up to no more than the bytes left, and then delivers one chunk per read |
| BytecodeStream.ReadSequenceStep | src/game/client/components/tclient/angelscript.cpp:54-58 | a read that would pass the end fails the whole sequence; otherwise it delivers the bytes at the cursor before the rest of the sequence |
| BytecodeStream.FlattenAppend | src/game/client/components/tclient/angelscript.cpp:45 | writing one more chunk extends the written bytes by that chunk |
| BytecodeStream.ReadBackWritten | src/game/client/components/tclient/angelscript.cpp:40-59 | bytes written chunk by chunk are read back as the same chunks wherever they sit in the buffer, when the reads ask for the written sizes |
| BytecodeStream.SaveLoadRoundTrip | src/game/client/components/tclient/angelscript.cpp:40-59 | an image produced by writes is read back from offset 0 as exactly the written chunks |
| StringFactory.Factory.GetStringConstant | src/game/client/components/tclient/angelscript.cpp:89-94 | returns a fresh object holding the literal, never one already tracked, and adds it to the table with count 1, leaving the other entries as they were |
| StringFactory.Factory.ReleaseStringConstant | src/game/client/components/tclient/angelscript.cpp:95-107 | a null pointer is `asERROR` and leaves the table unchanged; otherwise the status and the new table are those of `Release`; every count stays positive |
| StringFactory.Factory.GetRawStringData | src/game/client/components/tclient/angelscript.cpp:108-116 | always `asSUCCESS`, tracked or not; reports the length cut to 32 bits when asked for it, and the characters when a buffer is given |
| StringFactory.ReleaseUnknown | src/game/client/components/tclient/angelscript.cpp:98-100 | releasing an object the table does not track is `asERROR` and changes nothing |
| StringFactory.ReleaseTracked | src/game/client/components/tclient/angelscript.cpp:101-106 | releasing a tracked object is `asSUCCESS` and lowers its count by one; the object leaves the table exactly when its count was 1; no other entry changes |
| StringFactory.ReleaseKeepsCountsPositive | src/game/client/components/tclient/angelscript.cpp:101-105 | a table whose counts are positive keeps that property after any release |
| StringFactory.GetThenReleaseRestores | src/game/client/components/tclient/angelscript.cpp:89-107 | a literal made by `GetStringConstant` and released once leaves the table exactly as before |
| StringFactory.Release | src/game/client/components/tclient/angelscript.cpp:95-107 | releasing succeeds exactly when the object is tracked, and is `asERROR` otherwise; the tracked objects stay the same, except that the released one leaves exactly when its count was 1 |
| StringFactory.Factory.constructor | src/game/client/components/tclient/angelscript.cpp:118-119 | the factory starts with an empty reference-count table |
| StateQuery.StateStr | src/game/client/components/tclient/angelscript.cpp:168-310 | every error is the `invalid_argument` message "No state with name " followed by the name asked |
| StateQuery.StateStrAnswersExactlyKnownKeys | src/game/client/components/tclient/angelscript.cpp:168-309 | a query is answered exactly when its name is one of the eighteen known names; any other name yields the "No state with name " error followed by the name |
| StateQuery.AnsweredNames | src/game/client/components/tclient/angelscript.cpp:170-309 | the `if` chain answers exactly the eighteen names it tests, and every other name falls through to the throw |
| StateQuery.ServerInfoOf | src/game/client/components/tclient/angelscript.cpp:70-83 | `GetServerInfo` gives no descriptor exactly when the client is neither online nor playing a demo and there is no connect target; online or in a demo it gives the current server's descriptor; the only other descriptor it gives is the connect target |
| StateQuery.IntToString | src/game/client/components/tclient/angelscript.cpp:204-208 | `std::to_string` of an `int`: a leading minus sign exactly for negative numbers, followed by decimal digits whose value is the magnitude |
| StateQuery.StateTrampoline | src/game/client/components/tclient/angelscript.cpp:331-336 | with no active runner the global `state` answers ""; every failure it passes on is the unknown-name message from an active runner |
| StateQuery.LocationQuery | src/game/client/components/tclient/angelscript.cpp:257-279 | `location` is empty in race modes whatever the camera position, and one of the nine compass labels otherwise |
| StateQuery.LocationIndex | src/game/client/components/tclient/angelscript.cpp:277 | the label index is always below 9; its row is the clamped row and its column the clamped column |
| StateQuery.LocationLabel | src/game/client/components/tclient/angelscript.cpp:273-278 | the label is one of the nine labels |
| StateQuery.LocationLabelsDistinct | src/game/client/components/tclient/angelscript.cpp:273-278 | different cells inside the 3x3 grid get different labels |
| StateQuery.LocationClampsToGrid | src/game/client/components/tclient/angelscript.cpp:277 | a camera outside the map gets the label of the nearest border cell |
| StateQuery.Clamp | src/game/client/components/tclient/angelscript.cpp:277 | `std::clamp`: the result is within the bounds, and equals the value when the value is already within them |
| StateQuery.ClientStateWord | src/game/client/components/tclient/angelscript.cpp:283-307 | definition: the `switch` over the client state, one word for each of the seven states |
| StateQuery.StateQueryWords | src/game/client/components/tclient/angelscript.cpp:280-307 | `state` answers the word of the client state, and different states get different words |
| StateQuery.FlagQueries | src/game/client/components/tclient/angelscript.cpp:174-201 | each of the seven flag queries (`game_mode_pvp`, `game_mode_race`, `eye_wheel_allowed`, `zoom_allowed`, `dummy_allowed`, `dummy_connected`, `rcon_authed`) answers "true" exactly when its flag is set, and "false" otherwise |
| StateQuery.NatToDecimal | src/game/client/components/tclient/angelscript.cpp:204 | `std::to_string` of a natural number: at least one digit, all decimal digits, no leading zero, and its decimal value is the number |
| StateQuery.IntToStringRoundTrip | src/game/client/components/tclient/angelscript.cpp:204-208 | every integer `std::to_string` prints reads back as the same integer |
| StateQuery.NumericQueriesReadBack | src/game/client/components/tclient/angelscript.cpp:202-235 | `team`, `ddnet_team` and `players_connected` print the host's integers in a form that reads back as the same integers |
| StateQuery.ServerQueriesEmptyWhenDisconnected | src/game/client/components/tclient/angelscript.cpp:210-256 | when neither online nor playing a demo, and with no connect target, `map`, `server_ip`, `players_cap`, `server_name` and `community` all answer the empty string |
| StateQuery.ServerIpDuringDemo | src/game/client/components/tclient/angelscript.cpp:219-249 | during demo playback `server_name` uses the current server, while `server_ip` falls through to the connect target, or "" without one |
| StateQuery.TrampolinePassesErrorsThrough | src/game/client/components/tclient/angelscript.cpp:331-336 | with no active runner the global `state` answers ""; otherwise an unknown name's error passes through uncaught |
| ScriptRunner.ScriptLength | src/game/client/components/tclient/angelscript.cpp:362 | `str_length`: the length up to the first NUL byte; no byte before it is NUL, and the byte at it is NUL when it is not the end |
| ScriptRunner.ModuleNameOf | src/game/client/components/tclient/angelscript.cpp:384-387 | the module name is "mod:" followed by the file name with each `/` and `\` replaced by `_`, so it contains no separator |
| ScriptRunner.ModuleName | src/game/client/components/tclient/angelscript.cpp:384-387 | the in-place rewriting loop produces exactly `ModuleNameOf` of the file name |
| ScriptRunner.LoadByteCodeFrom | src/game/client/components/tclient/angelscript.cpp:405-408 | loading through a read-mode stream over the cached bytes returns `asSUCCESS` exactly when the engine's reads all fit in the image and the engine accepts them, and `asERROR` otherwise; the engine receives exactly the chunks `ReadSequence` delivers |
| ScriptRunner.SaveByteCodeTo | src/game/client/components/tclient/angelscript.cpp:436-439 | saving through a write-mode stream over a cleared vector is `asSUCCESS` exactly when the engine's save succeeds; the vector ends up holding exactly the engine's writes, in order |
| ScriptRunner.ShouldLoad | src/game/client/components/tclient/angelscript.cpp:403 | definition: the cache gate, an entry under the key whose hash is the current hash and whose bytecode is not empty |
| ScriptRunner.CacheAfterBuild | src/game/client/components/tclient/angelscript.cpp:436-442 | definition: the cache after a successful build, where the entry under the key (default-inserted with a zero digest) holds the saved bytes and gets the current hash only when the save succeeded |
| ScriptRunner.SaveIntoCache | src/game/client/components/tclient/angelscript.cpp:436-442 | the save after a successful build leaves the cache as `CacheAfterBuild` describes: the entry under the key, inserted with a zero digest if missing, holds exactly the saved bytes, and its hash is set only when the save succeeds |
| ScriptRunner.FirstProvided | src/game/client/components/tclient/angelscript.cpp:451-456 | the position of the first declaration the module resolves: none before it is resolved, and it is resolved unless no declaration is |
| ScriptRunner.EntryFunction | src/game/client/components/tclient/angelscript.cpp:449-461 | definition: the first of `void main()`, `void run()`, `void tclient()` the module provides, or none |
| ScriptRunner.FindEntryFunction | src/game/client/components/tclient/angelscript.cpp:449-461 | the candidate loop finds `EntryFunction`, and the lookups it makes are the declarations tried in order, stopping at the first that resolves |
| ScriptRunner.ObtainModule | src/game/client/components/tclient/angelscript.cpp:398-444 | obtaining the module leaves the cache as it was when it fails; the cache gains no key but the file name, and when it changes, the entry under the file name holds exactly the saved bytes |
| ScriptRunner.ExecuteEntry | src/game/client/components/tclient/angelscript.cpp:446-498 | the entry stage succeeds exactly when an entry function is found, a context is created and prepared, and the execution finishes; a C++ exception escapes exactly from a prepared execution that ends in one, and never together with success |
| ScriptRunner.TryBlock | src/game/client/components/tclient/angelscript.cpp:376-512 | the `try` block always starts by registering the globals and always sets the active runner; when an exception leaves it, the run does not succeed |
| ScriptRunner.ModuleAndEntry | src/game/client/components/tclient/angelscript.cpp:383-498 | definition: the `try` block after the globals are registered, as the module name, `GetModule`, `ObtainModule` and then, only on success, `ExecuteEntry`, with their calls in order and the escape flag of the entry stage |
| ScriptRunner.RunSpec | src/game/client/components/tclient/angelscript.cpp:351-517 | a run makes no engine call exactly when the file name is missing or empty or the file cannot be read; otherwise its first call creates the engine; a run that never set the active runner fails and leaves the cache alone; a successful run has cleared the active runner |
| ScriptRunner.ObtainModuleStep | src/game/client/components/tclient/angelscript.cpp:398-444 | the cache lookup, the load with its fallback to a rebuild, the compile and the save have the outcome, the engine calls and the new cache of `ObtainModule` |
| ScriptRunner.ExecuteEntryStep | src/game/client/components/tclient/angelscript.cpp:446-498 | the entry lookup, context creation, preparation and execution have the outcome and the calls of `ExecuteEntry`, including whether a C++ exception left them |
| ScriptRunner.TryBlockStep | src/game/client/components/tclient/angelscript.cpp:376-512 | the `try` block has the outcome and the calls of `TryBlock`; the active runner is left set exactly when an exception escaped, and cleared otherwise |
| ScriptRunner.ModuleAndEntryStep | src/game/client/components/tclient/angelscript.cpp:383-498 | after the globals are registered, deriving the module name, creating the module, obtaining it and running the entry function have the outcome, the calls and the cache of `ModuleAndEntry`, including whether an exception escaped |
| ScriptRunner.Runtime.constructor | src/game/client/components/tclient/angelscript.cpp:520-521 | the statics start as an empty cache and no active runner |
| ScriptRunner.Runner.Run | src/game/client/components/tclient/angelscript.cpp:351-517 | `Run` returns the success, makes the engine calls and leaves the cache of `RunSpec`; the active runner is untouched before an engine exists, left pointing at this runner after an escaped exception, and cleared otherwise |
| ScriptRunner.Runner.constructor | src/game/client/components/tclient/angelscript.cpp:345-349 | the runner keeps the file name, and the arguments, with a null argument pointer becoming the empty string |
| ScriptRunner.ExecScript | src/game/client/components/tclient/angelscript.cpp:529-533 | a fresh runner for the file name and arguments is run; its result and cache are those of `RunSpec`; the active-runner slot is unchanged when `RunSpec` never touches it, null when the `try` block cleared it, and otherwise the runner created here, which the source destroys on return so that the slot dangles |
| RunProperties.EntryPriority | src/game/client/components/tclient/angelscript.cpp:449-461 | the entry function is `void main()` if the module has it, else `void run()`, else `void tclient()`, else there is none |
| RunProperties.RunPreferredOverTclient | src/game/client/components/tclient/angelscript.cpp:449-456 | without `void main()`, a module that has `void run()` runs it, whether or not it also has `void tclient()` |
| RunProperties.LookupCallsAreLookups | src/game/client/components/tclient/angelscript.cpp:451-456 | the candidate loop only makes `GetFunctionByDecl` calls |
| RunProperties.ExecuteEntryCalls | src/game/client/components/tclient/angelscript.cpp:446-498 | the entry stage only makes lookup and context calls: no compile, cache or teardown call |
| RunProperties.EntryStageContextCalls | src/game/client/components/tclient/angelscript.cpp:464-496 | the entry stage executes exactly when a context was created and prepared for a found entry function, and releases it exactly when it was created, unless a C++ exception came through `Execute` |
| RunProperties.ObtainModuleCalls | src/game/client/components/tclient/angelscript.cpp:398-444 | the module stage only makes load, discard, module, compile and save calls |
| RunProperties.TryBlockHasNoTeardown | src/game/client/components/tclient/angelscript.cpp:376-512 | the engine is never shut down inside the `try` block |
| RunProperties.TeardownExactlyOnce | src/game/client/components/tclient/angelscript.cpp:366-517 | every run that created an engine shuts it down exactly once, as its very last engine call; a run that created none never does |
| RunProperties.LoadAttemptedExactlyWhenTrusted | src/game/client/components/tclient/angelscript.cpp:401-408 | a load from the cache is attempted exactly when the run reaches the lookup and the entry under the file name has the current hash and non-empty bytecode |
| RunProperties.CacheHitKeepsCache | src/game/client/components/tclient/angelscript.cpp:403-421 | a successful load compiles and builds nothing and leaves the cache unchanged |
| RunProperties.FailedLoadFallsBackToCompile | src/game/client/components/tclient/angelscript.cpp:413-423 | after a failed load the module is discarded and recreated under the same name, and the source is added for compiling next |
| RunProperties.CompileFailureKeepsCache | src/game/client/components/tclient/angelscript.cpp:421-432 | when adding or building the source fails, the run fails and the cache is unchanged |
| RunProperties.CacheAfterSuccessfulBuild | src/game/client/components/tclient/angelscript.cpp:433-443 | after a successful build the entry holds exactly the saved bytes; its hash is the current source's only when saving succeeded, else the old hash (the zero digest for a new entry) |
| RunProperties.OtherKeysUntouched | src/game/client/components/tclient/angelscript.cpp:398-444 | a run changes at most the cache entry under its own file name |
| RunProperties.CompiledBytesAreHashedBytes | src/game/client/components/tclient/angelscript.cpp:399-423 | a compile happens only in a run that reached the cache lookup, for the section named by the file name, and compiles exactly the NUL-terminated bytes that were hashed |
| RunProperties.CompileCallIsTheScript | src/game/client/components/tclient/angelscript.cpp:423 | the module stage's compile call adds exactly the file's script under the file name |
| RunProperties.FailedSaveKeepsStaleHash | src/game/client/components/tclient/angelscript.cpp:436-442 | a failed save leaves the previous hash beside bytecode built from a different source, so a later run whose source has that previous hash will try to load it |
| RunProperties.StaleBytecodeAfterFailedSave | src/game/client/components/tclient/angelscript.cpp:398-444 | three runs of one file name (source A saved, then source B built with a failed save, then A again) leave A's hash beside B's bytes; the third run loads them, and when the engine accepts them it compiles nothing, so B's code runs in place of A |
| RunProperties.SecondRunUsesCache | src/game/client/components/tclient/angelscript.cpp:398-444 | after a build whose save succeeded, running the unchanged script again tries the cache; when the engine reads back the chunks it wrote and accepts them, nothing is compiled and the cache stays as it was |
| RunProperties.ChangedSourceRecompiles | src/game/client/components/tclient/angelscript.cpp:403-423 | a source whose hash differs from the cached one is not loaded and is compiled afresh |
| RunProperties.NoEntryNoExecution | src/game/client/components/tclient/angelscript.cpp:457-461 | without any of the three entry functions the run fails, and no context is created and nothing is executed |
| RunProperties.SuccessExactlyWhenEveryStageSucceeds | src/game/client/components/tclient/angelscript.cpp:351-517 | a run succeeds exactly when every stage does: an engine, the globals, the module, a cache hit or successful compile, an entry function, a prepared context and an execution that finishes |
| RunProperties.ActiveRunnerLeftSetOnlyByExceptions | src/game/client/components/tclient/angelscript.cpp:379-512 | a run with no engine never touches the active runner; it is left set exactly when a C++ exception leaves the `try` block at one of the two points the model lets throw (registering the globals, or through `Execute`); every other run clears it |
| RunProperties.ContextExecutedAndReleased | src/game/client/components/tclient/angelscript.cpp:464-496 | a context is executed exactly when it was created and prepared; it is released exactly when it was created, unless a C++ exception thrown through `Execute` skipped the release |
| RunProperties.SameModuleNameIff | src/game/client/components/tclient/angelscript.cpp:384-387 | two file names get the same module name exactly when they have the same length and agree character by character, counting separators as underscores |
| RunProperties.ModuleNamesCanCollide | src/game/client/components/tclient/angelscript.cpp:384-398 | the distinct cache keys "a/b" and "a_b" share one module name |

## Left out

- The AngelScript engine itself is not modelled: compiling, bytecode
  format, the virtual machine and the context. `EngineModel` is a free
  parameter giving each call's answer. `LoadByteCode` is modelled as a
  sequence of reads of given sizes followed by the engine's verdict, and
  `SaveByteCode` as a sequence of writes.
- Whether the engine turns a C++ exception thrown by a host function into
  a script exception is the engine's choice. Both outcomes are in
  `ExecResult`: `ScriptException` for a converted one, `HostException` for
  one that propagates.
- SHA-256 (`sha256`) is an uninterpreted function parameter. Nothing is
  assumed about collisions.
- File reading (`ReadFileStr`) is a parameter: the file's bytes, or `None`
  when the file cannot be opened. `free` is not modelled.
- Logging (`log_error`, `log_info`) and the engine's message callback are
  not modelled. The callback is recorded only as the `SetMessageCallback`
  call.
- `AddGlobals` is represented by the single `RegisterGlobals` call, and a
  flag says whether it throws. The object behaviours of `string` (default,
  copy, destruct, assign), and the `print`, `puts` and `exec` functions, are
  not modelled; they are registrations and calls into the console and the
  log.
- `angelscript.h` and the console registration of `angel`
  (`OnConsoleInit`, `ConExecScript`) are not modelled. `ExecScript` is
  modelled with its arguments given directly.
- `StateStr` reads a snapshot of the host values it uses (`HostSnapshot`).
  The host objects, `net_addr_str` and the current dummy's id are not
  modelled.
- `location`: the float arithmetic that turns the camera centre and the
  game layer size into a row and a column is not modelled. That includes a
  missing game layer, where the map size is 0. `HostSnapshot` carries the
  truncated row and column, and the model applies the clamps and the label
  table to them.
- `state`: the empty answer for a state outside the seven named ones is not
  modelled, because `ClientState` has only those seven.
- StringFactory.Factory.GetStringConstant: the literal is given as a
  string, not as a pointer and a length. Freeing the object (`delete p`) is
  not modelled; a released object only leaves the table.
- StringFactory.Factory.GetRawStringData: the `memcpy` into the caller's
  buffer is modelled as returning the characters.
- ScriptRunner.ObtainModuleStep:
  - The new bytecode is written into a fresh vector and then stored in the
    default-inserted cache entry. The source points the stream straight
    at the entry's vector. The resulting cache is the same.
  - The module recreated after a failed load is not checked for null, and
    the model assumes the engine creates it.
- The calls that read a script exception's details for the log
  (`GetExceptionString`, `GetExceptionFunction`, `GetDeclaration`,
  `GetExceptionLineNumber`) are not recorded in the call trace. The message,
  function and line carried by `ScriptException` are therefore never read.
- RunProperties.ActiveRunnerLeftSetOnlyByExceptions: only two points may
  throw in the model: `AddGlobals`, and a host function called during
  `Execute`. A `std::bad_alloc` can also escape elsewhere in the source,
  which the model does not capture:
  - building the module name;
  - inserting into `s_Cache`;
  - `new std::string` in `GetStringConstant`, which the engine calls during
    `Build` or `LoadByteCode`.
  `Build` and `LoadByteCode` also run the module's global-variable
  initialisers, which may call host functions such as `state` or `exec`; an
  exception one of them throws could leave through `LoadByteCode` or
  `Build` as well. The model lets neither of them throw. Each such
  exception would also leave the active runner set.
- Nested runs are not modelled. A script's `exec` can start another `angel`
  run through the console, and that inner run leaves `s_pActiveRunner` in
  one of three states:
  - an inner run that returns early (no or empty file name, unreadable
    file, engine creation failing) leaves the slot untouched, so the outer
    script's `state` and `exec` keep working;
  - an inner run whose `try` block finishes clears the slot; from then on,
    in the outer script, `state` answers "" and `exec` does nothing;
  - an inner run whose `try` block is left by an exception leaves the slot
    pointing at the inner runner, which `ExecScript` destroys on return;
    the outer script's `state` and `exec` then go through a dangling
    pointer.
  The model has one run at a time writing to `Runtime.activeRunner`;
  `ExecScript`'s contract states which of these states a single run leaves.
- `Runner.args` is kept only as the value scripts read through the `args`
  global property; scripts reading it are not modelled.
- StringFactory.StringObject: its text is a Dafny `string`, and each
  character stands for one byte of the `std::string`. `size()` is therefore
  the number of characters.
- BytecodeStream.Stream.Read: `size_t` overflow of `m_Offset + size` is not
  modelled, since sizes are at most 32 bits and the buffer is a sequence.
