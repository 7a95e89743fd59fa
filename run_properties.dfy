/** What a run promises, stated over `RunSpec`: when the cache is trusted,
    how it changes, which entry function is chosen, when a run succeeds,
    and that the engine is torn down exactly once. */
module RunProperties {
  import opened Common
  import opened BytecodeStream
  import opened ScriptRunner

  /** The run gets past its early returns and creates an engine. */
  predicate Started(filename: Option<string>, text: Option<seq<byte>>, e: EngineModel)
  {
    filename.Some? && filename.value != [] && text.Some? && e.created
  }

  /** The run reaches the cache lookup. */
  predicate ReachesCache(filename: Option<string>, text: Option<seq<byte>>, e: EngineModel)
  {
    Started(filename, text, e) && !e.globalsThrow && e.moduleCreated
  }

  /** The hash of the script the run compiles. */
  function CurrentHash(text: Option<seq<byte>>, hash: seq<byte> -> Digest): Digest
    requires text.Some?
  {
    hash(Script(text.value))
  }

  /** The outcome of obtaining the compiled module in a run that reaches the
      cache lookup. */
  function ModuleStage(cache: Cache, filename: Option<string>, text: Option<seq<byte>>,
                       hash: seq<byte> -> Digest, e: EngineModel): ModuleOutcome
    requires ReachesCache(filename, text, e)
  {
    ObtainModule(cache, filename.value, ModuleNameOf(filename.value), Script(text.value), CurrentHash(text, hash), e)
  }

  /** The run reaches the entry-function lookup. */
  predicate ReachesEntry(cache: Cache, filename: Option<string>, text: Option<seq<byte>>,
                         hash: seq<byte> -> Digest, e: EngineModel)
  {
    ReachesCache(filename, text, e) && ModuleStage(cache, filename, text, hash, e).ok
  }

  // Entry selection.

  /** The entry function is `void main()` if the module has it, else
      `void run()`, else `void tclient()`, else there is none. */
  lemma EntryPriority(provided: set<string>)
    ensures EntryFunction(provided) ==
              if "void main()" in provided then Some("void main()")
              else if "void run()" in provided then Some("void run()")
              else if "void tclient()" in provided then Some("void tclient()")
              else None
  {
    var c := ENTRY_CANDIDATES;
    assert c[1..][1..][1..] == [];
    assert FirstProvided(c, provided) ==
             if c[0] in provided then 0 else 1 + FirstProvided(c[1..], provided);
    assert FirstProvided(c[1..], provided) ==
             if c[1] in provided then 0 else 1 + FirstProvided(c[1..][1..], provided);
    assert FirstProvided(c[1..][1..], provided) ==
             if c[2] in provided then 0 else 1 + FirstProvided(c[1..][1..][1..], provided);
  }

  /** A module with `void run()` and `void tclient()` but no `void main()`
      runs `void run()`. */
  lemma RunPreferredOverTclient(provided: set<string>)
    requires "void main()" !in provided && "void run()" in provided
    ensures EntryFunction(provided) == Some("void run()")
  {
    EntryPriority(provided);
  }

  // Calls that only certain stages make.

  lemma LookupCallsAreLookups(decls: seq<string>, c: EngineCall)
    requires c in LookupCalls(decls)
    ensures c.GetFunctionByDecl?
  {
  }

  /** The calls of the entry stage: lookups, then context calls; never a
      compile, cache or teardown call. */
  lemma ExecuteEntryCalls(e: EngineModel, c: EngineCall)
    requires c in ExecuteEntry(e).calls
    ensures c.GetFunctionByDecl? || c.CreateContext? || c.Prepare? || c.Execute? || c.ReleaseContext?
  {
    var lookups := LookupCalls(TriedDecls(e.provided));
    if c in lookups {
      LookupCallsAreLookups(TriedDecls(e.provided), c);
    }
  }

  /** The calls of the module stage are load, discard, module and compile
      calls. */
  lemma ObtainModuleCalls(cache: Cache, key: string, name: string, script: seq<byte>,
                          curHash: Digest, e: EngineModel, c: EngineCall)
    requires c in ObtainModule(cache, key, name, script, curHash, e).calls
    ensures c.LoadByteCode? || c.DiscardModule? || c.GetModule? || c.AddScriptSection? || c.Build? || c.SaveByteCode?
  {
  }

  /** The calls of the `try` block never include the teardown. */
  lemma TryBlockHasNoTeardown(cache: Cache, key: string, script: seq<byte>, curHash: Digest, e: EngineModel)
    ensures ShutDownAndRelease !in TryBlock(cache, key, script, curHash, e).calls
  {
    if !e.globalsThrow && e.moduleCreated {
      var name := ModuleNameOf(key);
      var m := ObtainModule(cache, key, name, script, curHash, e);
      if ShutDownAndRelease in m.calls {
        ObtainModuleCalls(cache, key, name, script, curHash, e, ShutDownAndRelease);
      }
      if m.ok && ShutDownAndRelease in ExecuteEntry(e).calls {
        ExecuteEntryCalls(e, ShutDownAndRelease);
      }
    }
  }

  // Teardown.

  /** Every run that created an engine shuts it down exactly once, as its
      last call; a run that created none never does. */
  lemma TeardownExactlyOnce(cache: Cache, filename: Option<string>, text: Option<seq<byte>>,
                            hash: seq<byte> -> Digest, e: EngineModel)
    ensures var o := RunSpec(cache, filename, text, hash, e);
            Started(filename, text, e) ==>
              && o.calls != [] && o.calls[|o.calls| - 1] == ShutDownAndRelease
              && multiset(o.calls)[ShutDownAndRelease] == 1
    ensures !Started(filename, text, e) ==> ShutDownAndRelease !in RunSpec(cache, filename, text, hash, e).calls
  {
    if Started(filename, text, e) {
      var script := Script(text.value);
      var t := TryBlock(cache, filename.value, script, hash(script), e);
      TryBlockHasNoTeardown(cache, filename.value, script, hash(script), e);
      var front := [CreateEngine, SetMessageCallback] + t.calls;
      assert ShutDownAndRelease !in front;
      assert multiset(front)[ShutDownAndRelease] == 0;
      assert multiset(front + [ShutDownAndRelease]) == multiset(front) + multiset{ShutDownAndRelease};
    }
  }

  // The cache.

  /** A load from the cache is attempted exactly when the run reaches the
      cache lookup and the entry under the file name has the current hash and
      non-empty bytecode. */
  lemma LoadAttemptedExactlyWhenTrusted(cache: Cache, filename: Option<string>, text: Option<seq<byte>>,
                                        hash: seq<byte> -> Digest, e: EngineModel)
    ensures LoadByteCode in RunSpec(cache, filename, text, hash, e).calls <==>
              ReachesCache(filename, text, e) && ShouldLoad(cache, filename.value, CurrentHash(text, hash))
  {
    if Started(filename, text, e) {
      var script := Script(text.value);
      var key := filename.value;
      var t := TryBlock(cache, key, script, hash(script), e);
      assert RunSpec(cache, filename, text, hash, e).calls
             == [CreateEngine, SetMessageCallback] + t.calls + [ShutDownAndRelease];
      if !e.globalsThrow && e.moduleCreated {
        var name := ModuleNameOf(key);
        var m := ObtainModule(cache, key, name, script, hash(script), e);
        assert LoadByteCode in m.calls <==> ShouldLoad(cache, key, hash(script));
        if m.ok {
          if LoadByteCode in ExecuteEntry(e).calls {
            ExecuteEntryCalls(e, LoadByteCode);
          }
          assert t.calls == [RegisterGlobals, GetModule(name)] + m.calls + ExecuteEntry(e).calls;
        } else {
          assert t.calls == [RegisterGlobals, GetModule(name)] + m.calls;
        }
      }
    }
  }

  /** A successful load from the cache compiles nothing and leaves the cache
      as it was. */
  lemma CacheHitKeepsCache(cache: Cache, filename: Option<string>, text: Option<seq<byte>>,
                           hash: seq<byte> -> Digest, e: EngineModel)
    requires ReachesCache(filename, text, e)
    requires ShouldLoad(cache, filename.value, CurrentHash(text, hash))
    requires LoadSucceeds(cache[filename.value].bytecode, e)
    ensures RunSpec(cache, filename, text, hash, e).cache == cache
    ensures forall c :: c in RunSpec(cache, filename, text, hash, e).calls ==> !c.AddScriptSection? && !c.Build?
  {
    forall c | c in RunSpec(cache, filename, text, hash, e).calls
      ensures !c.AddScriptSection? && !c.Build?
    {
      if c in ExecuteEntry(e).calls {
        ExecuteEntryCalls(e, c);
      }
    }
  }

  /** A failed load discards and recreates the module and falls through to
      compiling the source. */
  lemma FailedLoadFallsBackToCompile(cache: Cache, filename: Option<string>, text: Option<seq<byte>>,
                                     hash: seq<byte> -> Digest, e: EngineModel)
    requires ReachesCache(filename, text, e)
    requires ShouldLoad(cache, filename.value, CurrentHash(text, hash))
    requires !LoadSucceeds(cache[filename.value].bytecode, e)
    ensures var name := ModuleNameOf(filename.value);
            var calls := RunSpec(cache, filename, text, hash, e).calls;
            |calls| >= 8 &&
            calls[..8] == [CreateEngine, SetMessageCallback, RegisterGlobals, GetModule(name),
                           LoadByteCode, DiscardModule(name), GetModule(name),
                           AddScriptSection(filename.value, Script(text.value))]
  {
  }

  /** When the source cannot be added or built, the run fails and the cache
      is unchanged. */
  lemma CompileFailureKeepsCache(cache: Cache, filename: Option<string>, text: Option<seq<byte>>,
                                 hash: seq<byte> -> Digest, e: EngineModel)
    requires ReachesCache(filename, text, e)
    requires !(ShouldLoad(cache, filename.value, CurrentHash(text, hash)) && LoadSucceeds(cache[filename.value].bytecode, e))
    requires !e.addSectionOk || !e.buildOk
    ensures !RunSpec(cache, filename, text, hash, e).success
    ensures RunSpec(cache, filename, text, hash, e).cache == cache
  {
  }

  /** After a successful build, the entry under the file name holds exactly
      the bytes the engine saved; its hash becomes the hash of the compiled
      script only when saving succeeded, and otherwise stays the old hash (the
      zero digest for a new entry). */
  lemma CacheAfterSuccessfulBuild(cache: Cache, filename: Option<string>, text: Option<seq<byte>>,
                                  hash: seq<byte> -> Digest, e: EngineModel)
    requires ReachesCache(filename, text, e)
    requires !(ShouldLoad(cache, filename.value, CurrentHash(text, hash)) && LoadSucceeds(cache[filename.value].bytecode, e))
    requires e.addSectionOk && e.buildOk
    ensures var o := RunSpec(cache, filename, text, hash, e);
            && filename.value in o.cache
            && o.cache[filename.value].bytecode == Flatten(e.saveChunks)
            && o.cache[filename.value].hash ==
                 if e.saveOk then hash(Script(text.value))
                 else if filename.value in cache then cache[filename.value].hash
                 else ZERO_DIGEST
  {
  }

  /** A run changes at most the entry under its own file name. */
  lemma OtherKeysUntouched(cache: Cache, filename: Option<string>, text: Option<seq<byte>>,
                           hash: seq<byte> -> Digest, e: EngineModel, k: string)
    requires filename.None? || k != filename.value
    ensures var o := RunSpec(cache, filename, text, hash, e);
            && (k in o.cache <==> k in cache)
            && (k in cache ==> o.cache[k] == cache[k])
  {
  }

  /** The cache is keyed by file name alone: the hash is stored under the
      file name that was run, for the exact bytes that were compiled. */
  lemma CompiledBytesAreHashedBytes(cache: Cache, filename: Option<string>, text: Option<seq<byte>>,
                                    hash: seq<byte> -> Digest, e: EngineModel, c: EngineCall)
    requires c in RunSpec(cache, filename, text, hash, e).calls && c.AddScriptSection?
    ensures ReachesCache(filename, text, e)
    ensures c == AddScriptSection(filename.value, Script(text.value))
  {
    assert Started(filename, text, e);
    var script := Script(text.value);
    var key := filename.value;
    var t := TryBlock(cache, key, script, hash(script), e);
    assert c in t.calls;
    assert !e.globalsThrow && e.moduleCreated;
    var name := ModuleNameOf(key);
    var m := ObtainModule(cache, key, name, script, hash(script), e);
    if c in m.calls {
      CompileCallIsTheScript(cache, key, name, script, hash(script), e, c);
    } else {
      assert m.ok && c in ExecuteEntry(e).calls;
      ExecuteEntryCalls(e, c);
    }
  }

  lemma CompileCallIsTheScript(cache: Cache, key: string, name: string, script: seq<byte>,
                               curHash: Digest, e: EngineModel, c: EngineCall)
    requires c in ObtainModule(cache, key, name, script, curHash, e).calls && c.AddScriptSection?
    ensures c == AddScriptSection(key, script)
  {
  }

  /** A failed save leaves the entry's previous hash beside bytecode built
      from the current source: a later run whose source has that previous
      hash will try to load this bytecode. */
  lemma FailedSaveKeepsStaleHash(cache: Cache, filename: Option<string>, text: Option<seq<byte>>,
                                 hash: seq<byte> -> Digest, e: EngineModel)
    requires ReachesCache(filename, text, e)
    requires filename.value in cache && cache[filename.value].hash != CurrentHash(text, hash)
    requires e.addSectionOk && e.buildOk && !e.saveOk && Flatten(e.saveChunks) != []
    ensures var o := RunSpec(cache, filename, text, hash, e);
            && o.cache[filename.value] == CacheEntry(cache[filename.value].hash, Flatten(e.saveChunks))
            && ShouldLoad(o.cache, filename.value, cache[filename.value].hash)
  {
  }

  /** Running an unchanged script a second time after a build whose save
      succeeded tries the cache; when the engine reads the image back in the
      chunks it wrote and accepts it, nothing is compiled and the cache stays
      as the first run left it. */
  lemma SecondRunUsesCache(cache: Cache, filename: Option<string>, text: Option<seq<byte>>,
                           hash: seq<byte> -> Digest, e1: EngineModel, e2: EngineModel)
    requires ReachesCache(filename, text, e1) && ReachesCache(filename, text, e2)
    requires !(ShouldLoad(cache, filename.value, CurrentHash(text, hash))
               && LoadSucceeds(cache[filename.value].bytecode, e1))
    requires e1.addSectionOk && e1.buildOk && e1.saveOk && Flatten(e1.saveChunks) != []
    ensures var first := RunSpec(cache, filename, text, hash, e1);
            LoadByteCode in RunSpec(first.cache, filename, text, hash, e2).calls
    ensures var first := RunSpec(cache, filename, text, hash, e1);
            e2.loadReads == Sizes(e1.saveChunks) && e2.loadAccepts ==>
              && RunSpec(first.cache, filename, text, hash, e2).cache == first.cache
              && forall c :: c in RunSpec(first.cache, filename, text, hash, e2).calls ==> !c.AddScriptSection?
  {
    var first := RunSpec(cache, filename, text, hash, e1);
    CacheAfterSuccessfulBuild(cache, filename, text, hash, e1);
    assert ShouldLoad(first.cache, filename.value, CurrentHash(text, hash));
    LoadAttemptedExactlyWhenTrusted(first.cache, filename, text, hash, e2);
    if e2.loadReads == Sizes(e1.saveChunks) && e2.loadAccepts {
      SaveLoadRoundTrip(e1.saveChunks);
      assert LoadSucceeds(first.cache[filename.value].bytecode, e2);
      CacheHitKeepsCache(first.cache, filename, text, hash, e2);
    }
  }

  /** Three runs of one file name: source A is built and saved; source B is
      built but its save fails; source A runs again. The entry then pairs A's
      hash with the bytes saved from B, so the third run trusts the cache, and
      when the engine accepts those bytes it runs B's code without compiling
      A. */
  lemma StaleBytecodeAfterFailedSave(cache: Cache, filename: Option<string>,
                                     textA: Option<seq<byte>>, textB: Option<seq<byte>>,
                                     hash: seq<byte> -> Digest, e1: EngineModel, e2: EngineModel, e3: EngineModel)
    requires ReachesCache(filename, textA, e1) && ReachesCache(filename, textB, e2)
    requires ReachesCache(filename, textA, e3)
    requires !(ShouldLoad(cache, filename.value, CurrentHash(textA, hash))
               && LoadSucceeds(cache[filename.value].bytecode, e1))
    requires e1.addSectionOk && e1.buildOk && e1.saveOk
    requires CurrentHash(textB, hash) != CurrentHash(textA, hash)
    requires e2.addSectionOk && e2.buildOk && !e2.saveOk && Flatten(e2.saveChunks) != []
    ensures var c1 := RunSpec(cache, filename, textA, hash, e1).cache;
            var c2 := RunSpec(c1, filename, textB, hash, e2).cache;
            && c2[filename.value] == CacheEntry(CurrentHash(textA, hash), Flatten(e2.saveChunks))
            && LoadByteCode in RunSpec(c2, filename, textA, hash, e3).calls
    ensures var c1 := RunSpec(cache, filename, textA, hash, e1).cache;
            var c2 := RunSpec(c1, filename, textB, hash, e2).cache;
            e3.loadReads == Sizes(e2.saveChunks) && e3.loadAccepts ==>
              && RunSpec(c2, filename, textA, hash, e3).cache == c2
              && forall c :: c in RunSpec(c2, filename, textA, hash, e3).calls ==> !c.AddScriptSection?
  {
    var key := filename.value;
    var c1 := RunSpec(cache, filename, textA, hash, e1).cache;
    CacheAfterSuccessfulBuild(cache, filename, textA, hash, e1);
    assert key in c1 && c1[key].hash == CurrentHash(textA, hash);
    CacheAfterSuccessfulBuild(c1, filename, textB, hash, e2);
    FailedSaveKeepsStaleHash(c1, filename, textB, hash, e2);
    var c2 := RunSpec(c1, filename, textB, hash, e2).cache;
    assert ShouldLoad(c2, key, CurrentHash(textA, hash));
    LoadAttemptedExactlyWhenTrusted(c2, filename, textA, hash, e3);
    if e3.loadReads == Sizes(e2.saveChunks) && e3.loadAccepts {
      SaveLoadRoundTrip(e2.saveChunks);
      assert LoadSucceeds(c2[key].bytecode, e3);
      CacheHitKeepsCache(c2, filename, textA, hash, e3);
    }
  }

  /** A source whose hash differs from the cached one is compiled afresh and
      nothing is loaded. */
  lemma ChangedSourceRecompiles(cache: Cache, filename: Option<string>, text: Option<seq<byte>>,
                                hash: seq<byte> -> Digest, e: EngineModel)
    requires ReachesCache(filename, text, e)
    requires filename.value in cache && cache[filename.value].hash != CurrentHash(text, hash)
    ensures LoadByteCode !in RunSpec(cache, filename, text, hash, e).calls
    ensures AddScriptSection(filename.value, Script(text.value)) in RunSpec(cache, filename, text, hash, e).calls
  {
    LoadAttemptedExactlyWhenTrusted(cache, filename, text, hash, e);
  }

  // Entry function, execution and the result.

  /** Without any of the three entry functions the run fails, and no context
      is created and nothing is executed. */
  lemma NoEntryNoExecution(cache: Cache, filename: Option<string>, text: Option<seq<byte>>,
                           hash: seq<byte> -> Digest, e: EngineModel)
    requires ReachesEntry(cache, filename, text, hash, e)
    requires EntryFunction(e.provided).None?
    ensures !RunSpec(cache, filename, text, hash, e).success
    ensures CreateContext !in RunSpec(cache, filename, text, hash, e).calls
    ensures Execute !in RunSpec(cache, filename, text, hash, e).calls
  {
    var m := ModuleStage(cache, filename, text, hash, e);
    var lookups := LookupCalls(TriedDecls(e.provided));
    if CreateContext in lookups {
      LookupCallsAreLookups(TriedDecls(e.provided), CreateContext);
    }
    if Execute in lookups {
      LookupCallsAreLookups(TriedDecls(e.provided), Execute);
    }
    if CreateContext in m.calls {
      ObtainModuleCalls(cache, filename.value, ModuleNameOf(filename.value), Script(text.value),
                        CurrentHash(text, hash), e, CreateContext);
    }
    if Execute in m.calls {
      ObtainModuleCalls(cache, filename.value, ModuleNameOf(filename.value), Script(text.value),
                        CurrentHash(text, hash), e, Execute);
    }
  }

  /** A run succeeds exactly when every stage succeeds: an engine, the
      globals, the module, a module loaded from the cache or compiled, an
      entry function, a prepared context and an execution that finishes. */
  lemma SuccessExactlyWhenEveryStageSucceeds(cache: Cache, filename: Option<string>, text: Option<seq<byte>>,
                                             hash: seq<byte> -> Digest, e: EngineModel)
    ensures RunSpec(cache, filename, text, hash, e).success <==>
              && ReachesCache(filename, text, e)
              && ((ShouldLoad(cache, filename.value, CurrentHash(text, hash))
                   && LoadSucceeds(cache[filename.value].bytecode, e))
                  || (e.addSectionOk && e.buildOk))
              && EntryFunction(e.provided).Some?
              && e.contextCreated && e.prepareOk && e.execution.Finished?
  {
  }

  /** The active runner is left set exactly when a C++ exception leaves the
      `try` block (while registering the globals, or thrown through
      `Execute`); a run that created no engine never touches it, and every
      other run clears it. */
  lemma ActiveRunnerLeftSetOnlyByExceptions(cache: Cache, filename: Option<string>, text: Option<seq<byte>>,
                                            hash: seq<byte> -> Digest, e: EngineModel)
    ensures RunSpec(cache, filename, text, hash, e).active == Untouched <==> !Started(filename, text, e)
    ensures RunSpec(cache, filename, text, hash, e).active == LeftSet <==>
              && Started(filename, text, e)
              && (e.globalsThrow
                  || (ReachesEntry(cache, filename, text, hash, e)
                      && EntryFunction(e.provided).Some?
                      && e.contextCreated && e.prepareOk && e.execution.HostException?))
  {
  }

  /** The entry stage on its own: it executes exactly when a context was
      created and prepared for a found entry function, and it releases the
      context exactly when one was created, unless a C++ exception came
      through `Execute`. */
  lemma EntryStageContextCalls(e: EngineModel)
    ensures Execute in ExecuteEntry(e).calls <==>
              EntryFunction(e.provided).Some? && e.contextCreated && e.prepareOk
    ensures ReleaseContext in ExecuteEntry(e).calls <==>
              EntryFunction(e.provided).Some? && e.contextCreated && !(e.prepareOk && e.execution.HostException?)
  {
    var lookups := LookupCalls(TriedDecls(e.provided));
    if Execute in lookups {
      LookupCallsAreLookups(TriedDecls(e.provided), Execute);
    }
    if ReleaseContext in lookups {
      LookupCallsAreLookups(TriedDecls(e.provided), ReleaseContext);
    }
  }

  /** A context is executed exactly when one was created and prepared for the
      entry function, and it is released exactly when it was created, unless
      a C++ exception thrown through `Execute` skipped the release. */
  lemma ContextExecutedAndReleased(cache: Cache, filename: Option<string>, text: Option<seq<byte>>,
                                   hash: seq<byte> -> Digest, e: EngineModel)
    ensures Execute in RunSpec(cache, filename, text, hash, e).calls <==>
              ReachesEntry(cache, filename, text, hash, e) && EntryFunction(e.provided).Some?
              && e.contextCreated && e.prepareOk
    ensures ReleaseContext in RunSpec(cache, filename, text, hash, e).calls <==>
              ReachesEntry(cache, filename, text, hash, e) && EntryFunction(e.provided).Some?
              && e.contextCreated && !(e.prepareOk && e.execution.HostException?)
  {
    if Started(filename, text, e) {
      var key, script := filename.value, Script(text.value);
      var t := TryBlock(cache, key, script, hash(script), e);
      assert RunSpec(cache, filename, text, hash, e).calls
             == [CreateEngine, SetMessageCallback] + t.calls + [ShutDownAndRelease];
      if !e.globalsThrow && e.moduleCreated {
        var name := ModuleNameOf(key);
        var m := ObtainModule(cache, key, name, script, hash(script), e);
        if Execute in m.calls {
          ObtainModuleCalls(cache, key, name, script, hash(script), e, Execute);
        }
        if ReleaseContext in m.calls {
          ObtainModuleCalls(cache, key, name, script, hash(script), e, ReleaseContext);
        }
        if m.ok {
          EntryStageContextCalls(e);
          assert t.calls == [RegisterGlobals, GetModule(name)] + m.calls + ExecuteEntry(e).calls;
        } else {
          assert t.calls == [RegisterGlobals, GetModule(name)] + m.calls;
        }
      }
    }
  }

  // The module name.

  /** Two file names get the same module name exactly when they have the
      same length and agree character by character once separators are
      rewritten to underscores. */
  lemma SameModuleNameIff(a: string, b: string)
    ensures ModuleNameOf(a) == ModuleNameOf(b) <==>
              |a| == |b| && forall i :: 0 <= i < |a| ==> SeparatorToUnderscore(a[i]) == SeparatorToUnderscore(b[i])
  {
    if ModuleNameOf(a) == ModuleNameOf(b) {
      forall i | 0 <= i < |a|
        ensures SeparatorToUnderscore(a[i]) == SeparatorToUnderscore(b[i])
      {
        assert ModuleNameOf(a)[4 + i] == ModuleNameOf(b)[4 + i];
      }
    }
    if |a| == |b| && forall i :: 0 <= i < |a| ==> SeparatorToUnderscore(a[i]) == SeparatorToUnderscore(b[i]) {
      forall j | 0 <= j < |ModuleNameOf(a)|
        ensures ModuleNameOf(a)[j] == ModuleNameOf(b)[j]
      {
        if j < 4 {
          assert ModuleNameOf(a)[..4][j] == ModuleNameOf(b)[..4][j];
        } else {
          assert SeparatorToUnderscore(a[j - 4]) == SeparatorToUnderscore(b[j - 4]);
        }
      }
    }
  }

  /** Distinct file names can share a module name: a separator and an
      underscore are not told apart, although the cache keeps the two keys
      apart. */
  lemma ModuleNamesCanCollide()
    ensures "a/b" != "a_b" && ModuleNameOf("a/b") == ModuleNameOf("a_b")
  {
    var a, b := "a/b", "a_b";
    assert a[1] != b[1];
    assert forall i :: 0 <= i < |a| ==> SeparatorToUnderscore(a[i]) == SeparatorToUnderscore(b[i]);
    SameModuleNameIff(a, b);
  }
}
