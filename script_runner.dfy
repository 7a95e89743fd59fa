/** One run of a script: engine creation, the bytecode cache keyed by file
    name, compile-or-load, entry-function selection, execution and teardown.
    The scripting engine is represented by the outcomes it reports
    (`EngineModel`), and a run records the calls it makes into the engine
    (`EngineCall`) so that their order and teardown can be stated. */
module ScriptRunner {
  import opened Common
  import opened BytecodeStream

  /** A SHA-256 digest. */
  type Digest = seq<byte>

  /** The value-initialised `SHA256_DIGEST` of a new cache entry. */
  const ZERO_DIGEST: Digest := [0, 0, 0, 0, 0, 0, 0, 0, 0, 0, 0, 0, 0, 0, 0, 0,
                                 0, 0, 0, 0, 0, 0, 0, 0, 0, 0, 0, 0, 0, 0, 0, 0]

  /** `CCacheEntry`: the hash of the source the bytecode was saved from, and
      the saved bytecode. */
  datatype CacheEntry = CacheEntry(hash: Digest, bytecode: seq<byte>)

  /** `s_Cache`, keyed by file name as given. */
  type Cache = map<string, CacheEntry>

  /** The entry declarations, in the order they are looked up. */
  const ENTRY_CANDIDATES: seq<string> := ["void main()", "void run()", "void tclient()"]

  /** How `Execute` ends: normally, with a script exception (its message,
      function and line), with another return code, or by a C++ exception
      thrown through it from a host function. */
  datatype ExecResult =
    | Finished
    | ScriptException(message: string, functionDecl: string, line: int)
    | Abnormal(code: int)
    | HostException(what: string)

  /** What the engine answers to each call a run makes. `loadReads` are the
      sizes `LoadByteCode` reads through the stream, in order; it stops at
      the first failed read and succeeds when all reads succeed and
      `loadAccepts` holds. `saveChunks` are the blocks `SaveByteCode` writes
      and `saveOk` its result. `provided` are the declarations
      `GetFunctionByDecl` resolves. */
  datatype EngineModel = EngineModel(
    created: bool,
    globalsThrow: bool,
    moduleCreated: bool,
    loadReads: seq<AsUint>,
    loadAccepts: bool,
    addSectionOk: bool,
    buildOk: bool,
    saveChunks: seq<Chunk>,
    saveOk: bool,
    provided: set<string>,
    contextCreated: bool,
    prepareOk: bool,
    execution: ExecResult)

  /** The calls a run makes into the engine; `RegisterGlobals` stands for
      all registrations of `AddGlobals`. */
  datatype EngineCall =
    | CreateEngine
    | SetMessageCallback
    | RegisterGlobals
    | GetModule(name: string)
    | LoadByteCode
    | DiscardModule(name: string)
    | AddScriptSection(section: string, code: seq<byte>)
    | Build
    | SaveByteCode
    | GetFunctionByDecl(decl: string)
    | CreateContext
    | Prepare(decl: string)
    | Execute
    | ReleaseContext
    | ShutDownAndRelease

  // The script text.

  /** `str_length` of the text the file was read into: its length up to the
      first NUL byte. */
  function ScriptLength(text: seq<byte>): (n: nat)
    ensures n <= |text|
    ensures forall i :: 0 <= i < n ==> text[i] != 0
    ensures n < |text| ==> text[n] == 0
  {
    if text == [] || text[0] == 0 then 0 else 1 + ScriptLength(text[1..])
  }

  /** The bytes that are hashed and compiled. */
  function Script(text: seq<byte>): seq<byte>
  {
    text[..ScriptLength(text)]
  }

  // The module name.

  function SeparatorToUnderscore(c: char): char
  {
    if c == '/' || c == '\\' then '_' else c
  }

  /** "mod:" followed by the file name with each path separator replaced by
      an underscore. */
  function ModuleNameOf(filename: string): (name: string)
    ensures |name| == 4 + |filename|
    ensures name[..4] == "mod:"
    ensures forall i :: 0 <= i < |filename| ==>
              name[4 + i] == (if filename[i] == '/' || filename[i] == '\\' then '_' else filename[i])
    ensures forall i :: 0 <= i < |name| ==> name[i] != '/' && name[i] != '\\'
  {
    "mod:" + seq(|filename|, i requires 0 <= i < |filename| => SeparatorToUnderscore(filename[i]))
  }

  /** Builds "mod:" + `filename` and rewrites its separators in place, one
      character at a time. */
  method ModuleName(filename: string) returns (name: string)
    ensures name == ModuleNameOf(filename)
  {
    var original := "mod:" + filename;
    name := original;
    var i := 0;
    while i < |name|
      invariant |name| == |original|
      invariant 0 <= i <= |name|
      invariant forall j :: 0 <= j < i ==> name[j] == SeparatorToUnderscore(original[j])
      invariant forall j :: i <= j < |name| ==> name[j] == original[j]
    {
      if name[i] == '/' || name[i] == '\\' {
        name := name[i := '_'];
      }
      i := i + 1;
    }
    assert forall j :: 0 <= j < 4 ==> original[j] == SeparatorToUnderscore(original[j]);
  }

  // The cache.

  /** Loading from the cache is attempted only for an entry under `key`
      whose hash is the current source's and whose bytecode is not empty. */
  predicate ShouldLoad(cache: Cache, key: string, curHash: Digest)
  {
    key in cache && cache[key].hash == curHash && |cache[key].bytecode| > 0
  }

  /** Whether `LoadByteCode` over a stream on `image` succeeds. */
  predicate LoadSucceeds(image: seq<byte>, e: EngineModel)
  {
    ReadSequence(image, 0, e.loadReads).Some? && e.loadAccepts
  }

  /** The cache after a successful build: the entry under `key` (a new one
      with the zero digest if there was none) gets exactly the saved bytes,
      and the current hash only if saving succeeded. */
  function CacheAfterBuild(cache: Cache, key: string, curHash: Digest, e: EngineModel): Cache
  {
    var previous := if key in cache then cache[key].hash else ZERO_DIGEST;
    cache[key := CacheEntry(if e.saveOk then curHash else previous, Flatten(e.saveChunks))]
  }

  /** `pMod->LoadByteCode(&In)` with `In` a read-mode stream over `image`:
      reads `e.loadReads` in order, stopping at the first failure. Succeeds
      exactly when `LoadSucceeds`, and then the engine has received the
      chunks `ReadSequence` describes. */
  method LoadByteCodeFrom(image: seq<byte>, e: EngineModel) returns (r: int, received: seq<seq<byte>>)
    ensures r == AS_SUCCESS || r == AS_ERROR
    ensures r == AS_SUCCESS <==> LoadSucceeds(image, e)
    ensures ReadSequence(image, 0, e.loadReads).Some? ==> received == ReadSequence(image, 0, e.loadReads).value
  {
    var input := new Stream.ForRead(image);
    var sizes := e.loadReads;
    var ok := true;
    var i := 0;
    received := [];
    assert sizes[0..] == sizes;
    if ReadSequence(image, 0, sizes).Some? {
      assert [] + ReadSequence(image, 0, sizes).value == ReadSequence(image, 0, sizes).value;
    }
    while i < |sizes| && ok
      invariant 0 <= i <= |sizes|
      invariant input.Valid() && input.input == Some(image) && input.inSize == |image|
      invariant ok ==> ReadSequence(image, 0, sizes) == Prepend(received, ReadSequence(image, input.offset, sizes[i..]))
      invariant !ok ==> ReadSequence(image, 0, sizes).None?
    {
      ghost var before := input.offset;
      ReadSequenceStep(image, before, sizes[i..]);
      assert sizes[i..][0] == sizes[i] && sizes[i..][1..] == sizes[i + 1..];
      var status, chunk := input.Read(sizes[i]);
      if status == AS_SUCCESS {
        PrependTwice(received, [chunk], ReadSequence(image, input.offset, sizes[i + 1..]));
        received := received + [chunk];
      } else {
        ok := false;
      }
      i := i + 1;
    }
    if ok {
      assert sizes[i..] == [];
      assert received + [] == received;
    }
    r := if ok && e.loadAccepts then AS_SUCCESS else AS_ERROR;
  }

  /** `pMod->SaveByteCode(&Out)` with `Out` a write-mode stream over the
      cleared bytecode vector of the entry: every chunk the engine writes is
      appended, so the vector ends up holding exactly their concatenation. */
  method SaveByteCodeTo(e: EngineModel) returns (r: int, image: seq<byte>)
    ensures r == AS_SUCCESS <==> e.saveOk
    ensures r != AS_SUCCESS ==> r == AS_ERROR
    ensures image == Flatten(e.saveChunks)
  {
    var vector := new ByteVector();
    var output := new Stream.ForWrite(vector);
    var chunks := e.saveChunks;
    var i := 0;
    while i < |chunks|
      invariant 0 <= i <= |chunks|
      invariant output.Valid() && output.out == vector
      invariant vector.bytes == Flatten(chunks[..i])
    {
      var status := output.Write(chunks[i]);
      FlattenAppend(chunks[..i], chunks[i]);
      assert chunks[..i + 1] == chunks[..i] + [chunks[i]];
      i := i + 1;
    }
    assert chunks[..i] == chunks;
    image := vector.bytes;
    r := if e.saveOk then AS_SUCCESS else AS_ERROR;
  }

  // The entry function.

  /** The position of the first of `decls` that `provided` holds, or
      `|decls|` if none is. */
  function FirstProvided(decls: seq<string>, provided: set<string>): (k: nat)
    ensures k <= |decls|
    ensures forall j :: 0 <= j < k ==> decls[j] !in provided
    ensures k < |decls| ==> decls[k] in provided
  {
    if decls == [] then 0
    else if decls[0] in provided then 0
    else 1 + FirstProvided(decls[1..], provided)
  }

  /** The entry function the run selects, if any. */
  function EntryFunction(provided: set<string>): Option<string>
  {
    var k := FirstProvided(ENTRY_CANDIDATES, provided);
    if k < |ENTRY_CANDIDATES| then Some(ENTRY_CANDIDATES[k]) else None
  }

  /** The declarations looked up, in order, until one resolves. */
  function TriedDecls(provided: set<string>): seq<string>
  {
    var k := FirstProvided(ENTRY_CANDIDATES, provided);
    ENTRY_CANDIDATES[..if k < |ENTRY_CANDIDATES| then k + 1 else k]
  }

  function LookupCalls(decls: seq<string>): seq<EngineCall>
  {
    seq(|decls|, i requires 0 <= i < |decls| => GetFunctionByDecl(decls[i]))
  }

  /** The candidate loop: asks the module for each declaration in turn and
      stops at the first it provides. */
  method FindEntryFunction(provided: set<string>) returns (found: Option<string>, lookups: seq<EngineCall>)
    ensures found == EntryFunction(provided)
    ensures lookups == LookupCalls(TriedDecls(provided))
  {
    found := None;
    lookups := [];
    var i := 0;
    while i < |ENTRY_CANDIDATES|
      invariant 0 <= i <= |ENTRY_CANDIDATES|
      invariant forall j :: 0 <= j < i ==> ENTRY_CANDIDATES[j] !in provided
      invariant lookups == LookupCalls(ENTRY_CANDIDATES[..i])
    {
      var decl := ENTRY_CANDIDATES[i];
      lookups := lookups + [GetFunctionByDecl(decl)];
      assert ENTRY_CANDIDATES[..i + 1] == ENTRY_CANDIDATES[..i] + [decl];
      if decl in provided {
        found := Some(decl);
        assert FirstProvided(ENTRY_CANDIDATES, provided) == i;
        return;
      }
      i := i + 1;
    }
    assert FirstProvided(ENTRY_CANDIDATES, provided) == |ENTRY_CANDIDATES|;
  }

  // The specification of a run.

  /** The result of obtaining a compiled module: whether one is ready, the
      cache afterwards and the calls made. */
  datatype ModuleOutcome = ModuleOutcome(ok: bool, cache: Cache, calls: seq<EngineCall>)

  /** Load from the cache when `ShouldLoad`; on a failed load discard and
      recreate the module; unless loaded, compile `script` and, after a
      successful build, save it into the cache. A failure leaves the cache
      as it was; the cache gains no key but `key`, and it
      changes only after a build, to hold the saved bytes under `key`. */
  function ObtainModule(cache: Cache, key: string, name: string, script: seq<byte>,
                        curHash: Digest, e: EngineModel): (r: ModuleOutcome)
    ensures !r.ok ==> r.cache == cache
    ensures r.cache != cache ==> key in r.cache && r.cache[key].bytecode == Flatten(e.saveChunks)
    ensures r.cache.Keys <= cache.Keys + {key}
  {
    var attempt := ShouldLoad(cache, key, curHash);
    if attempt && LoadSucceeds(cache[key].bytecode, e) then ModuleOutcome(true, cache, [LoadByteCode])
    else
      var fallback := if attempt then [LoadByteCode, DiscardModule(name), GetModule(name)] else [];
      var compile := fallback + [AddScriptSection(key, script)];
      if !e.addSectionOk then ModuleOutcome(false, cache, compile)
      else if !e.buildOk then ModuleOutcome(false, cache, compile + [Build])
      else ModuleOutcome(true, CacheAfterBuild(cache, key, curHash, e), compile + [Build, SaveByteCode])
  }

  /** The result of running the entry function: success, the calls made,
      and whether a C++ exception escaped. */
  datatype ExecOutcome = ExecOutcome(ok: bool, calls: seq<EngineCall>, escaped: bool)

  /** Selects the entry function, creates and prepares a context and
      executes it. It succeeds exactly when every step does and the execution
      finishes; an exception escapes exactly from a prepared execution that
      ends in a C++ exception, and never alongside success. */
  function ExecuteEntry(e: EngineModel): (r: ExecOutcome)
    ensures r.ok <==> EntryFunction(e.provided).Some? && e.contextCreated && e.prepareOk && e.execution.Finished?
    ensures r.escaped <==> EntryFunction(e.provided).Some? && e.contextCreated && e.prepareOk
                           && e.execution.HostException?
    ensures !(r.ok && r.escaped)
  {
    var lookups := LookupCalls(TriedDecls(e.provided));
    match EntryFunction(e.provided)
    case None => ExecOutcome(false, lookups, false)
    case Some(decl) =>
      if !e.contextCreated then ExecOutcome(false, lookups + [CreateContext], false)
      else if !e.prepareOk then ExecOutcome(false, lookups + [CreateContext, Prepare(decl), ReleaseContext], false)
      else if e.execution.HostException? then ExecOutcome(false, lookups + [CreateContext, Prepare(decl), Execute], true)
      else ExecOutcome(e.execution.Finished?, lookups + [CreateContext, Prepare(decl), Execute, ReleaseContext], false)
  }

  /** What a run leaves in the active-runner slot: its old value (the run
      never set it), the runner itself, or null. */
  datatype ActiveAfter = Untouched | LeftSet | Cleared

  datatype RunOutcome = RunOutcome(success: bool, cache: Cache, calls: seq<EngineCall>, active: ActiveAfter)

  /** The `try` block of a run, from registering the globals on: its result,
      the cache afterwards, the calls made and whether a C++ exception left
      the block with the active runner still set. The block always starts by
      registering the globals and always sets the active runner; a block an
      exception left never succeeds. */
  function TryBlock(cache: Cache, key: string, script: seq<byte>, curHash: Digest, e: EngineModel): (r: RunOutcome)
    ensures r.calls != [] && r.calls[0] == RegisterGlobals
    ensures r.active != Untouched
    ensures r.active == LeftSet ==> !r.success
  {
    if e.globalsThrow then RunOutcome(false, cache, [RegisterGlobals], LeftSet)
    else ModuleAndEntry(cache, key, script, curHash, e)
  }

  /** The `try` block once registering the globals has returned: the module
      is created, obtained and its entry function run. */
  function ModuleAndEntry(cache: Cache, key: string, script: seq<byte>, curHash: Digest, e: EngineModel): RunOutcome
  {
    var name := ModuleNameOf(key);
    var started := [RegisterGlobals, GetModule(name)];
    if !e.moduleCreated then RunOutcome(false, cache, started, Cleared)
    else
      var m := ObtainModule(cache, key, name, script, curHash, e);
      if !m.ok then RunOutcome(false, m.cache, started + m.calls, Cleared)
      else
        var x := ExecuteEntry(e);
        RunOutcome(x.ok, m.cache, started + m.calls + x.calls, if x.escaped then LeftSet else Cleared)
  }

  /** A run of `filename` whose file read gave `text` (None if it could not
      be read), with SHA-256 `hash` and an engine answering as `e`: after the
      engine is created, the `try` block runs and the engine is shut down.
      No engine call is made exactly when the file name is missing or empty
      or the file cannot be read; the first call creates the engine; a run
      that never set the active runner fails and leaves the cache alone, and
      a run that succeeds has cleared the active runner. */
  function RunSpec(cache: Cache, filename: Option<string>, text: Option<seq<byte>>,
                   hash: seq<byte> -> Digest, e: EngineModel): (r: RunOutcome)
    ensures r.calls == [] <==> filename.None? || filename.value == [] || text.None?
    ensures r.calls != [] ==> r.calls[0] == CreateEngine
    ensures r.active == Untouched ==> !r.success && r.cache == cache
    ensures r.success ==> r.active == Cleared
  {
    if filename.None? || filename.value == [] || text.None? then RunOutcome(false, cache, [], Untouched)
    else if !e.created then RunOutcome(false, cache, [CreateEngine], Untouched)
    else
      var script := Script(text.value);
      var t := TryBlock(cache, filename.value, script, hash(script), e);
      RunOutcome(t.success, t.cache, [CreateEngine, SetMessageCallback] + t.calls + [ShutDownAndRelease], t.active)
  }

  // The imperative run.

  /** The process-wide statics: `s_Cache` and `s_pActiveRunner`. */
  class Runtime {
    var cache: Cache
    var activeRunner: Runner?

    constructor ()
      ensures cache == map[] && activeRunner == null
    {
      cache := map[];
      activeRunner := null;
    }
  }

  /** The save after a successful build: `s_Cache[Key]` inserts an entry
      with a zero digest when there is none, its bytecode is cleared, the
      engine writes the new image into it, and the hash is set only when the
      save succeeds. */
  method SaveIntoCache(rt: Runtime, key: string, curHash: Digest, engine: EngineModel)
    modifies rt`cache
    ensures rt.cache == CacheAfterBuild(old(rt.cache), key, curHash, engine)
  {
    var entry := if key in rt.cache then rt.cache[key] else CacheEntry(ZERO_DIGEST, []);
    rt.cache := rt.cache[key := entry.(bytecode := [])];
    var r, image := SaveByteCodeTo(engine);
    rt.cache := rt.cache[key := rt.cache[key].(bytecode := image)];
    if r == AS_SUCCESS {
      rt.cache := rt.cache[key := rt.cache[key].(hash := curHash)];
    }
  }

  /** The cache part of `Run()`: try the cached bytecode, fall back to
      compiling `script`, and store what a successful build saves. */
  method ObtainModuleStep(rt: Runtime, key: string, modName: string, script: seq<byte>,
                          curHash: Digest, engine: EngineModel) returns (ok: bool, calls: seq<EngineCall>)
    modifies rt`cache
    ensures var m := ObtainModule(old(rt.cache), key, modName, script, curHash, engine);
            ok == m.ok && calls == m.calls && rt.cache == m.cache
  {
    ok := true;
    calls := [];
    var loadedFromCache := false;
    if key in rt.cache && rt.cache[key].hash == curHash && |rt.cache[key].bytecode| > 0 {
      calls := calls + [LoadByteCode];
      var r, _ := LoadByteCodeFrom(rt.cache[key].bytecode, engine);
      if r == AS_SUCCESS {
        loadedFromCache := true;
      } else {
        // Fall back to a rebuild.
        calls := calls + [DiscardModule(modName), GetModule(modName)];
      }
    }
    if !loadedFromCache {
      calls := calls + [AddScriptSection(key, script)];
      if !engine.addSectionOk {
        ok := false;
      } else {
        calls := calls + [Build];
        if !engine.buildOk {
          ok := false;
        } else {
          calls := calls + [SaveByteCode];
          SaveIntoCache(rt, key, curHash, engine);
        }
      }
    }
  }

  /** The entry part of `Run()`: select the entry function, create and
      prepare a context, execute, and release the context unless a C++
      exception left the block. */
  method ExecuteEntryStep(engine: EngineModel) returns (ok: bool, calls: seq<EngineCall>, escaped: bool)
    ensures ExecuteEntry(engine) == ExecOutcome(ok, calls, escaped)
  {
    ok, escaped := true, false;
    var found, lookups := FindEntryFunction(engine.provided);
    calls := lookups;
    if found.None? {
      ok := false;
      return;
    }
    calls := calls + [CreateContext];
    if !engine.contextCreated {
      ok := false;
      return;
    }
    calls := calls + [Prepare(found.value)];
    if !engine.prepareOk {
      ok := false;
    } else {
      calls := calls + [Execute];
      if engine.execution.HostException? {
        escaped := true;
        ok := false;
        return;
      } else if !engine.execution.Finished? {
        ok := false;
      }
    }
    calls := calls + [ReleaseContext];
  }

  /** The `try` block of `Run()` for `runner`: sets the active runner,
      registers the globals, creates the module, obtains the compiled module
      and runs the entry function; the active runner is cleared at its end,
      which a C++ exception (`escaped`) skips. */
  method TryBlockStep(rt: Runtime, runner: Runner, key: string, script: seq<byte>,
                      curHash: Digest, engine: EngineModel)
    returns (success: bool, calls: seq<EngineCall>, escaped: bool)
    modifies rt
    ensures var t := TryBlock(old(rt.cache), key, script, curHash, engine);
            && success == t.success
            && calls == t.calls
            && rt.cache == t.cache
            && escaped == (t.active == LeftSet)
            && t.active != Untouched
            && rt.activeRunner == if escaped then runner else null
  {
    rt.activeRunner := runner;
    if engine.globalsThrow {
      return false, [RegisterGlobals], true;
    }
    success, calls, escaped := ModuleAndEntryStep(rt, key, script, curHash, engine);
    if !escaped {
      rt.activeRunner := null;
    }
  }

  /** The `try` block of `Run()` after `AddGlobals` has returned: derives
      the module name, creates the module, obtains the compiled module and
      runs the entry function. */
  method ModuleAndEntryStep(rt: Runtime, key: string, script: seq<byte>, curHash: Digest, engine: EngineModel)
    returns (success: bool, calls: seq<EngineCall>, escaped: bool)
    modifies rt`cache
    ensures var t := ModuleAndEntry(old(rt.cache), key, script, curHash, engine);
            && success == t.success
            && calls == t.calls
            && rt.cache == t.cache
            && escaped == (t.active == LeftSet)
  {
    escaped := false;
    var modName := ModuleName(key);
    calls := [RegisterGlobals, GetModule(modName)];
    if !engine.moduleCreated {
      success := false;
    } else {
      var moduleCalls;
      success, moduleCalls := ObtainModuleStep(rt, key, modName, script, curHash, engine);
      calls := calls + moduleCalls;
      if success {
        var execCalls;
        success, execCalls, escaped := ExecuteEntryStep(engine);
        calls := calls + execCalls;
      }
    }
  }

  /** `CAngelScriptRunner`: the file name (None for a null pointer) and the
      argument string exposed to the script as `args`. */
  class Runner {
    const filename: Option<string>
    const args: string

    constructor (filename: Option<string>, args: Option<string>)
      ensures this.filename == filename
      ensures this.args == args.GetOr("")
    {
      this.filename := filename;
      this.args := args.GetOr("");
    }

    /** `Run()`: `text` is what reading the file returned. The result, the
        calls into the engine, the new cache and the active-runner slot are
        those of `RunSpec`. */
    method Run(rt: Runtime, text: Option<seq<byte>>, hash: seq<byte> -> Digest, engine: EngineModel)
      returns (success: bool, calls: seq<EngineCall>)
      modifies rt
      ensures var o := RunSpec(old(rt.cache), filename, text, hash, engine);
              && success == o.success
              && calls == o.calls
              && rt.cache == o.cache
              && rt.activeRunner == match o.active
                                    case Untouched => old(rt.activeRunner)
                                    case LeftSet => this
                                    case Cleared => null
    {
      ghost var o := RunSpec(rt.cache, filename, text, hash, engine);
      if filename.None? || filename.value == [] {
        assert o == RunOutcome(false, rt.cache, [], Untouched);
        return false, [];
      }
      if text.None? {
        assert o == RunOutcome(false, rt.cache, [], Untouched);
        return false, [];
      }
      var script := Script(text.value);
      calls := [CreateEngine];
      if !engine.created {
        assert o == RunOutcome(false, rt.cache, [CreateEngine], Untouched);
        return false, calls;
      }
      ghost var t := TryBlock(rt.cache, filename.value, script, hash(script), engine);
      assert o == RunOutcome(t.success, t.cache, [CreateEngine, SetMessageCallback] + t.calls + [ShutDownAndRelease], t.active);
      calls := calls + [SetMessageCallback];
      var tryCalls, escaped;
      success, tryCalls, escaped := TryBlockStep(rt, this, filename.value, script, hash(script), engine);
      calls := calls + tryCalls;
      // The catch blocks.
      if escaped {
        success := false;
      }
      calls := calls + [ShutDownAndRelease];
    }
  }

  /** `CAngelScript::ExecScript`: a fresh runner for `filename` and `args`
      runs once; its result and the new cache are the run's. The slot is
      left as it was on an early return, cleared after the `try` block, and
      otherwise left pointing at the runner made here, which the source
      destroys when `ExecScript` returns. */
  method ExecScript(rt: Runtime, filename: Option<string>, args: Option<string>, text: Option<seq<byte>>,
                    hash: seq<byte> -> Digest, engine: EngineModel) returns (success: bool)
    modifies rt
    ensures success == RunSpec(old(rt.cache), filename, text, hash, engine).success
    ensures rt.cache == RunSpec(old(rt.cache), filename, text, hash, engine).cache
    ensures var o := RunSpec(old(rt.cache), filename, text, hash, engine);
            && (o.active == Untouched ==> rt.activeRunner == old(rt.activeRunner))
            && (o.active == Cleared ==> rt.activeRunner == null)
            && (o.active == LeftSet ==> rt.activeRunner != null && fresh(rt.activeRunner))
  {
    var runner := new Runner(filename, args);
    var calls;
    success, calls := runner.Run(rt, text, hash, engine);
  }
}
