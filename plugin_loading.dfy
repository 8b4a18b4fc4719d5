/**
 * The node's plugin-loading step at startup. Every *.dll in the Plugins
 * directory is loaded, registered as an application part, and searched for the
 * single type implementing the plugin entry interface, which is then
 * instantiated and initialised with the service collection. One try block
 * wraps the whole step: the first exception ends it, is logged, and startup
 * goes on. Reflection is abstracted: a file is described by what loading it
 * would do.
 */
module PluginLoading {
  import opened Wrappers

  /** What instantiating the entry type and invoking Initialize does. */
  datatype Activation = Activated | ConstructorThrows | InitializeThrows

  /**
   * One plugin file: whether its assembly loads, whether its types can be
   * enumerated, how many of them implement the plugin entry interface, and what
   * activating the entry type does.
   */
  datatype PluginFile = PluginFile(
    fullName: string,
    assemblyLoads: bool,
    typesLoad: bool,
    entryTypes: nat,
    activation: Activation)

  /** The exception that ended plugin loading. */
  datatype LoadFault =
    | DirectoryMissing
    | AssemblyLoadFailed
    | TypeLoadFailed
    | MultiplePluginTypes
    | ConstructorFailed
    | InitializeFailed

  /** Observable effects of plugin loading, in the order they happen. */
  datatype StartupEvent =
    | PartAdded(assembly: string)
    | InitializeCalled(plugin: string)
    | NoPluginsWarning
    | LoadErrorLogged(fault: LoadFault)

  /** True when processing the file throws, which ends the loop. */
  predicate Aborts(f: PluginFile)
    ensures f.entryTypes > 1 ==> Aborts(f)
    ensures f.assemblyLoads && f.typesLoad && f.entryTypes == 0 ==> !Aborts(f)
  {
    !f.assemblyLoads || !f.typesLoad || f.entryTypes > 1 || (f.entryTypes == 1 && f.activation != Activated)
  }

  /** True when the file's entry type is instantiated and Initialize is invoked on it. */
  predicate Initializes(f: PluginFile)
    ensures Initializes(f) ==> f.entryTypes == 1 && (Aborts(f) <==> f.activation == InitializeThrows)
    ensures !Aborts(f) && f.entryTypes == 1 ==> Initializes(f)
  {
    f.assemblyLoads && f.typesLoad && f.entryTypes == 1 && f.activation != ConstructorThrows
  }

  /** A logged error, if any, is the last event: nothing happens after the exception. */
  predicate ErrorsLast(t: seq<StartupEvent>)
  {
    forall i :: 0 <= i < |t| && t[i].LoadErrorLogged? ==> i == |t| - 1
  }

  /** Every InitializeCalled directly follows the registration of the same assembly as a part. */
  predicate PartBeforeInitialize(t: seq<StartupEvent>)
  {
    forall i :: 0 <= i < |t| && t[i].InitializeCalled? ==> 0 < i && t[i - 1] == PartAdded(t[i].plugin)
  }

  /** The plugins on which Initialize was invoked, in the order of the events. */
  function InitializedPlugins(t: seq<StartupEvent>): seq<string>
  {
    if t == [] then []
    else (if t[0].InitializeCalled? then [t[0].plugin] else []) + InitializedPlugins(t[1..])
  }

  lemma {:induction false} InitializedPluginsAppend(a: seq<StartupEvent>, b: seq<StartupEvent>)
    ensures InitializedPlugins(a + b) == InitializedPlugins(a) + InitializedPlugins(b)
  {
    if a == [] {
      assert a + b == b;
    } else {
      assert (a + b)[0] == a[0];
      assert (a + b)[1..] == a[1..] + b;
      InitializedPluginsAppend(a[1..], b);
    }
  }

  /**
   * The plugins Initialize should reach: every file with exactly one entry type
   * whose activation gets as far as Initialize, in file order, up to and
   * including the first file that throws.
   */
  function ExpectedInitialized(files: seq<PluginFile>): (r: seq<string>)
    ensures |r| <= |files|
  {
    if files == [] then []
    else if Aborts(files[0]) then (if Initializes(files[0]) then [files[0].fullName] else [])
    else if files[0].entryTypes == 1 then [files[0].fullName] + ExpectedInitialized(files[1..])
    else ExpectedInitialized(files[1..])
  }

  /** The events processing one file produces (the body of the foreach, Program.cs:61-75). */
  function FileTrace(f: PluginFile): (r: seq<StartupEvent>)
    ensures f.assemblyLoads <==> |r| > 0 && r[0] == PartAdded(f.fullName)
    ensures Aborts(f) <==> |r| > 0 && r[|r| - 1].LoadErrorLogged?
    ensures f.entryTypes > 1 && f.assemblyLoads && f.typesLoad ==> r == [PartAdded(f.fullName), LoadErrorLogged(MultiplePluginTypes)]
    ensures f.entryTypes == 0 && f.assemblyLoads && f.typesLoad ==> r == [PartAdded(f.fullName)]
  {
    if !f.assemblyLoads then [LoadErrorLogged(AssemblyLoadFailed)]
    else
      [PartAdded(f.fullName)] +
      if !f.typesLoad then [LoadErrorLogged(TypeLoadFailed)]
      else if f.entryTypes == 0 then []
      else if f.entryTypes > 1 then [LoadErrorLogged(MultiplePluginTypes)]
      else
        match f.activation
        case Activated => [InitializeCalled(f.fullName)]
        case ConstructorThrows => [LoadErrorLogged(ConstructorFailed)]
        case InitializeThrows => [InitializeCalled(f.fullName), LoadErrorLogged(InitializeFailed)]
  }

  /** Processing one file invokes Initialize at most once, on that file's plugin, exactly when it gets that far. */
  lemma FileTraceInitializes(f: PluginFile)
    ensures InitializedPlugins(FileTrace(f)) == if Initializes(f) then [f.fullName] else []
  {
    var t := FileTrace(f);
    if f.assemblyLoads {
      var tail := t[1..];
      assert t == [t[0]] + tail;
      InitializedPluginsAppend([t[0]], tail);
      assert [t[0]][1..] == [];
      if |tail| == 2 {
        assert tail == [tail[0]] + [tail[1]];
        InitializedPluginsAppend([tail[0]], [tail[1]]);
        assert [tail[0]][1..] == [];
        assert [tail[1]][1..] == [];
      } else if |tail| == 1 {
        assert tail[1..] == [];
      }
    } else {
      assert t[1..] == [];
    }
  }

  /** One file's own events are well formed. */
  lemma FileTraceWellFormed(f: PluginFile)
    ensures ErrorsLast(FileTrace(f)) && PartBeforeInitialize(FileTrace(f))
  {
  }

  /** The events of the foreach over the files: in order, stopping after the first file that throws. */
  function LoopTrace(files: seq<PluginFile>): (r: seq<StartupEvent>)
    ensures files == [] ==> r == []
    ensures files != [] ==> FileTrace(files[0]) <= r
  {
    if files == [] then []
    else FileTrace(files[0]) + if Aborts(files[0]) then [] else LoopTrace(files[1..])
  }

  /**
   * The events of the whole step: a missing directory makes GetFiles throw,
   * an empty directory only logs a warning.
   */
  function StartupTrace(listing: Option<seq<PluginFile>>): (r: seq<StartupEvent>)
    ensures listing.None? ==> r == [LoadErrorLogged(DirectoryMissing)]
    ensures listing == Some([]) ==> r == [NoPluginsWarning]
    ensures listing.Some? && |listing.value| > 0 ==> r == LoopTrace(listing.value)
  {
    match listing
    case None => [LoadErrorLogged(DirectoryMissing)]
    case Some(files) => if |files| > 0 then LoopTrace(files) else [NoPluginsWarning]
  }

  /** The loop over the files from index i on: file i's events, then the rest unless file i throws. */
  lemma LoopTraceUnfold(files: seq<PluginFile>, i: nat)
    requires i < |files|
    ensures LoopTrace(files[i..]) == FileTrace(files[i]) + if Aborts(files[i]) then [] else LoopTrace(files[i + 1..])
  {
    assert files[i..][0] == files[i];
    assert files[i..][1..] == files[i + 1..];
  }

  /**
   * Regrouping of a concatenation, called in LoadFiles: stating it as a lemma of
   * its own keeps that loop's proof within the verifier's resource limit.
   */
  lemma AppendAssociative(a: seq<StartupEvent>, b: seq<StartupEvent>, c: seq<StartupEvent>)
    ensures a + (b + c) == (a + b) + c
  {
  }

  /** Files before the first throwing file contribute their events in order and unaffected by what follows. */
  lemma {:induction false} LoopTraceAppend(a: seq<PluginFile>, b: seq<PluginFile>)
    requires forall i :: 0 <= i < |a| ==> !Aborts(a[i])
    ensures LoopTrace(a + b) == LoopTrace(a) + LoopTrace(b)
  {
    if a == [] {
      assert a + b == b;
    } else {
      assert (a + b)[0] == a[0];
      assert (a + b)[1..] == a[1..] + b;
      LoopTraceAppend(a[1..], b);
    }
  }

  /** A throwing file ends the loop: no later file is loaded, registered or initialised. */
  lemma LoopStopsAtFault(a: seq<PluginFile>, f: PluginFile, b: seq<PluginFile>)
    requires forall i :: 0 <= i < |a| ==> !Aborts(a[i])
    requires Aborts(f)
    ensures LoopTrace(a + [f] + b) == LoopTrace(a) + FileTrace(f)
  {
    assert a + [f] + b == a + ([f] + b);
    LoopTraceAppend(a, [f] + b);
    assert ([f] + b)[0] == f;
  }

  /** In the loop's events an error is always the last event, and every Initialize follows its own part registration. */
  lemma {:induction false} LoopTraceWellFormed(files: seq<PluginFile>)
    ensures ErrorsLast(LoopTrace(files)) && PartBeforeInitialize(LoopTrace(files))
  {
    if files != [] {
      var f := files[0];
      var head := FileTrace(f);
      FileTraceWellFormed(f);
      if !Aborts(f) {
        LoopTraceWellFormed(files[1..]);
        var tail := LoopTrace(files[1..]);
        var t := head + tail;
        assert t == LoopTrace(files);
        assert forall i :: 0 <= i < |head| ==> !head[i].LoadErrorLogged?;
        assert tail != [] ==> !tail[0].InitializeCalled? by {
          if tail != [] {
            assert files[1..] != [];
            assert tail[0] == FileTrace(files[1..][0])[0];
          }
        }
        forall i | 0 <= i < |t| && t[i].LoadErrorLogged?
          ensures i == |t| - 1
        {
          assert i >= |head|;
          assert tail[i - |head|] == t[i];
        }
        forall i | 0 <= i < |t| && t[i].InitializeCalled?
          ensures 0 < i && t[i - 1] == PartAdded(t[i].plugin)
        {
          if i < |head| {
            assert t[i] == head[i];
            assert t[i - 1] == head[i - 1];
          } else {
            assert t[i] == tail[i - |head|];
            assert i - |head| > 0;
            assert t[i - 1] == tail[i - 1 - |head|];
          }
        }
      } else {
        assert LoopTrace(files) == head + [];
      }
    }
  }

  /** Initialize is invoked once per single-entry-type file, in file order, and never after a file has thrown. */
  lemma {:induction false} LoopInitializesExpected(files: seq<PluginFile>)
    ensures InitializedPlugins(LoopTrace(files)) == ExpectedInitialized(files)
  {
    if files != [] {
      var f := files[0];
      FileTraceInitializes(f);
      if Aborts(f) {
        assert FileTrace(f) + [] == FileTrace(f);
        assert LoopTrace(files) == FileTrace(f);
      } else {
        LoopInitializesExpected(files[1..]);
        InitializedPluginsAppend(FileTrace(f), LoopTrace(files[1..]));
      }
    }
  }

  /**
   * Whatever the listing, the step's events are well formed, and Initialize
   * reaches exactly the expected plugins of a listed directory.
   */
  lemma StartupTraceWellFormed(listing: Option<seq<PluginFile>>)
    ensures ErrorsLast(StartupTrace(listing)) && PartBeforeInitialize(StartupTrace(listing))
    ensures listing.Some? ==> InitializedPlugins(StartupTrace(listing)) == ExpectedInitialized(listing.value)
  {
    match listing
    case None =>
    case Some(files) =>
      if |files| > 0 {
        LoopTraceWellFormed(files);
        LoopInitializesExpected(files);
      } else {
        assert [NoPluginsWarning][1..] == [];
      }
  }

  /** An empty file list produces only the warning, and no plugin is initialised. */
  lemma EmptyDirectoryOnlyWarns()
    ensures StartupTrace(Some([])) == [NoPluginsWarning]
    ensures InitializedPlugins(StartupTrace(Some([]))) == []
  {
    assert StartupTrace(Some([])) == [NoPluginsWarning];
    assert [NoPluginsWarning][1..] == [];
  }

  /**
   * The host builder during plugin loading: its service collection's
   * application parts, the plugins initialised with it and the log, as one
   * sequence of events.
   */
  class NodeBuilder {
    var events: seq<StartupEvent>

    constructor ()
      ensures events == []
    {
      events := [];
    }

    /** One iteration of the foreach (Program.cs:61-75); thrown tells whether it raised an exception. */
    method ProcessFile(f: PluginFile) returns (thrown: bool)
      modifies this
      ensures thrown == Aborts(f)
      ensures events == old(events) + FileTrace(f)
    {
      if !f.assemblyLoads {
        events := events + [LoadErrorLogged(AssemblyLoadFailed)];
        return true;
      }
      events := events + [PartAdded(f.fullName)];
      var fault: Option<LoadFault> := None;
      if !f.typesLoad {
        fault := Some(TypeLoadFailed);
      } else if f.entryTypes > 1 {
        fault := Some(MultiplePluginTypes);
      } else if f.entryTypes == 1 {
        match f.activation {
          case Activated =>
            events := events + [InitializeCalled(f.fullName)];
          case ConstructorThrows =>
            fault := Some(ConstructorFailed);
          case InitializeThrows =>
            events := events + [InitializeCalled(f.fullName)];
            fault := Some(InitializeFailed);
        }
      }
      if fault.Some? {
        events := events + [LoadErrorLogged(fault.value)];
      }
      thrown := fault.Some?;
    }

    /** Plugin loading (Program.cs:52-86); listing is None when the Plugins directory does not exist. */
    method LoadPlugins(listing: Option<seq<PluginFile>>)
      modifies this
      ensures events == old(events) + StartupTrace(listing)
    {
      match listing {
        case None =>
          events := events + [LoadErrorLogged(DirectoryMissing)];
        case Some(files) =>
          if |files| > 0 {
            LoadFiles(files);
          } else {
            events := events + [NoPluginsWarning];
          }
      }
    }

    /** The foreach over the plugin files (Program.cs:59-76), ending at the first exception. */
    method LoadFiles(files: seq<PluginFile>)
      modifies this
      ensures events == old(events) + LoopTrace(files)
    {
      var i := 0;
      while i < |files|
        invariant 0 <= i <= |files|
        invariant old(events) + LoopTrace(files) == events + LoopTrace(files[i..])
      {
        var f := files[i];
        LoopTraceUnfold(files, i);
        ghost var before := events;
        ghost var rest := if Aborts(f) then [] else LoopTrace(files[i + 1..]);
        var thrown := ProcessFile(f);
        AppendAssociative(before, FileTrace(f), rest);
        if thrown {
          assert events == events + rest;
          return;
        }
        i := i + 1;
      }
    }
  }
}
