/**
 * The load effect of `LdrModel`: each run of the effect (a new `url`,
 * loader or `partsBase`) clears the shown group, waits for the materials,
 * the resolved source and the loaded group, and commits the group only
 * while it is still active; its cleanup deactivates it and disposes what
 * it committed. The step-mode effect shows the first `currentStep` parts.
 *
 * React's scheduling is modelled by the caller: each awaited step that
 * completes is a method call on the run, and the runs' calls may be
 * interleaved in any order the phases allow.
 */
module PreviewLifecycle {
  import opened Wrappers
  import opened Scene
  import opened PreviewUrls
  import opened LDrawLoad

  /** A `useRef(true)` box: whether a run may still commit its result. */
  class ActiveFlag {
    var current: bool

    constructor (v: bool)
      ensures current == v
    {
      current := v;
    }
  }

  /** One mounted `LdrModel`: its `group` state, its `isActiveRef`, and what it has reported and released so far. */
  class PreviewHost {
    var group: Option<Node>
    const isActiveRef: ActiveFlag
    /** Whether the optional `onStepCountChange` prop was given. */
    const hasStepCallback: bool
    /** The arguments of the `onStepCountChange` calls, in order. */
    var stepCounts: seq<nat>
    /** The resources released by `dispose` calls, in order. */
    var disposed: seq<nat>

    constructor (hasStepCallback: bool)
      ensures this.hasStepCallback == hasStepCallback
      ensures group == None && isActiveRef.current && fresh(isActiveRef)
      ensures stepCounts == [] && disposed == []
    {
      this.hasStepCallback := hasStepCallback;
      group := None;
      isActiveRef := new ActiveFlag(true);
      stepCounts := [];
      disposed := [];
    }

    /** A run of the load effect as written: every run shares the component's one `isActiveRef`. */
    method StartLoad(url: string, partsBase: string) returns (r: LoadRun)
      modifies this`group, isActiveRef
      ensures fresh(r) && r.host == this && r.flag == isActiveRef && r.url == url && r.partsBase == partsBase
      ensures isActiveRef.current && group == None && r.loadedObj == None
      ensures r.phase == if url == "" || partsBase == "" then Finished else AwaitingPreload
    {
      r := new LoadRun.Start(this, isActiveRef, url, partsBase);
    }

    /** A run of the load effect with a flag of its own, which no later run can switch back on. */
    method StartTokenLoad(url: string, partsBase: string) returns (r: LoadRun)
      modifies this`group
      ensures fresh(r) && fresh(r.flag) && r.host == this && r.url == url && r.partsBase == partsBase
      ensures r.flag.current && group == None && r.loadedObj == None
      ensures r.phase == if url == "" || partsBase == "" then Finished else AwaitingPreload
    {
      var flag := new ActiveFlag(false);
      r := new LoadRun.Start(this, flag, url, partsBase);
    }

    /** `disposeObject3D(g)`. */
    method Dispose(g: Node)
      modifies this`disposed
      ensures disposed == old(disposed) + Disposals(g)
    {
      var calls := DisposeTree(g);
      disposed := disposed + calls;
    }

    /** The step-mode effect: with a group and step mode on, top-level child `i` is shown iff `i < currentStep`. */
    method ApplyStepMode(stepMode: bool, currentStep: int)
      modifies this`group
      ensures old(group).Some? && stepMode ==> group == Some(WithStepVisibility(old(group).value, currentStep))
      ensures !(old(group).Some? && stepMode) ==> group == old(group)
    {
      if group.Some? && stepMode {
        var g := ApplyStepVisibility(group.value, currentStep);
        group := Some(g);
      }
    }
  }

  /** Where a run of the load effect is suspended. */
  datatype Phase = AwaitingPreload | AwaitingResolve | AwaitingLoad | Finished

  /** One run of the load effect, with its closure's `loadedObj`. */
  class LoadRun {
    const host: PreviewHost
    const flag: ActiveFlag
    const url: string
    const partsBase: string
    var loadedObj: Option<Node>
    var phase: Phase

    /** The synchronous start of the effect: activate, clear the group, and stop at once when `url` or `partsBase` is empty. */
    constructor Start(host: PreviewHost, flag: ActiveFlag, url: string, partsBase: string)
      modifies flag, host`group
      ensures this.host == host && this.flag == flag && this.url == url && this.partsBase == partsBase
      ensures flag.current && host.group == None && loadedObj == None
      ensures phase == if url == "" || partsBase == "" then Finished else AwaitingPreload
    {
      this.host := host;
      this.flag := flag;
      this.url := url;
      this.partsBase := partsBase;
      loadedObj := None;
      phase := if url == "" || partsBase == "" then Finished else AwaitingPreload;
      new;
      flag.current := true;
      host.group := None;
    }

    /** The `catch` of `run`: the group is cleared only while the run is active. */
    method Fail()
      modifies this`phase, host`group
      ensures phase == Finished
      ensures host.group == if flag.current then None else old(host.group)
    {
      phase := Finished;
      if flag.current {
        host.group := None;
      }
    }

    /** `preloadMaterials` has finished, successfully or not. */
    method PreloadDone(ok: bool)
      requires phase == AwaitingPreload
      modifies this`phase, host`group
      ensures ok ==> phase == AwaitingResolve && host.group == old(host.group)
      ensures !ok ==> phase == Finished && host.group == (if flag.current then None else old(host.group))
    {
      if ok {
        phase := AwaitingResolve;
      } else {
        Fail();
      }
    }

    /** `resolveAssetUrl(url)` has settled; a run that is no longer active stops here. */
    method SourceResolved(r: Result<Resolved>)
      requires phase == AwaitingResolve
      modifies this`phase, host`group
      ensures r.Err? ==> phase == Finished && host.group == (if flag.current then None else old(host.group))
      ensures r.Ok? ==> host.group == old(host.group) && phase == (if flag.current then AwaitingLoad else Finished)
    {
      if r.Err? {
        Fail();
      } else if !flag.current {
        phase := Finished;
      } else {
        phase := AwaitingLoad;
      }
    }

    /**
     * `loadLDrawGroup` has settled. A rejection goes to the `catch`; a
     * group that arrives after the run was deactivated is disposed; an
     * active run reports the part count (when the callback was given), remembers the group for its
     * cleanup, and shows it.
     */
    method LoadSettled(s: Settlement)
      requires phase == AwaitingLoad
      modifies this`phase, this`loadedObj, host`group, host`stepCounts, host`disposed
      ensures phase == Finished
      ensures s.Rejected? ==>
                host.group == (if flag.current then None else old(host.group))
                && host.stepCounts == old(host.stepCounts) && host.disposed == old(host.disposed)
                && loadedObj == old(loadedObj)
      ensures s.Fulfilled? && !flag.current ==>
                host.disposed == old(host.disposed) + Disposals(s.group)
                && host.group == old(host.group) && host.stepCounts == old(host.stepCounts)
                && loadedObj == old(loadedObj)
      ensures s.Fulfilled? && flag.current ==>
                host.group == Some(s.group) && loadedObj == Some(s.group)
                && host.stepCounts == old(host.stepCounts) + (if host.hasStepCallback then [|s.group.children|] else [])
                && host.disposed == old(host.disposed)
    {
      if s.Rejected? {
        Fail();
        return;
      }
      var g := s.group;
      phase := Finished;
      if !flag.current {
        host.Dispose(g);
        return;
      }
      if host.hasStepCallback {
        host.stepCounts := host.stepCounts + [|g.children|];
      }
      loadedObj := Some(g);
      host.group := Some(g);
    }

    /** The effect's cleanup, run when its dependencies change or the component unmounts. */
    method Cleanup()
      modifies flag, host`disposed
      ensures !flag.current
      ensures host.disposed == old(host.disposed) + (if loadedObj.Some? then Disposals(loadedObj.value) else [])
    {
      flag.current := false;
      if loadedObj.Some? {
        host.Dispose(loadedObj.value);
      }
    }
  }

  const FirstModel: string := "https://example.com/first.ldr"
  const SecondModel: string := "https://example.com/second.ldr"

  /** A loader that hands `g` to the success callback after `load` has returned. */
  function DeliversLater(g: Node): LoaderTrace {
    LoaderTrace([], None, Falsy(""), [OnLoad(Other(AddMethod(g), Falsy(""), "", "", "Group", ""))])
  }

  /** The first model is an http URL, so it resolves to itself. */
  lemma FirstModelResolves()
    ensures ResolveAssetUrl(FirstModel, _ => Err(""), _ => Err("")) == Ok(Resolved(UrlContent, FirstModel))
  {
    assert IsHttpUrl(FirstModel) by {
      assert FirstModel[..8] == "https://";
    }
  }

  /** A late delivery of `g` fulfils the load of the first model with `g`. */
  lemma FirstModelLoads(g: Node)
    ensures Settle(Calls(Resolved(UrlContent, FirstModel), DeliversLater(g))) == Some(Fulfilled(g))
  {
    assert Calls(Resolved(UrlContent, FirstModel), DeliversLater(g)) == DeliversLater(g).later;
  }

  /**
   * The `url` changes while the first model is still loading: the first run
   * has resolved its source and awaits the loader when its cleanup runs and
   * the second run starts. With `perRunFlag` each run gets its own flag;
   * otherwise both share the component's `isActiveRef`. The preview is given
   * an `onStepCountChange` callback.
   */
  method SupersedeFirstLoad(perRunFlag: bool) returns (host: PreviewHost, first: LoadRun)
    ensures fresh(host) && first.host == host && first.phase == AwaitingLoad && first.loadedObj == None
    ensures first.url == FirstModel && first.flag.current == !perRunFlag
    ensures host.hasStepCallback && host.group == None && host.stepCounts == [] && host.disposed == []
  {
    var base := EnsureLocalLdrawLibrary();
    host := new PreviewHost(true);
    if perRunFlag {
      first := host.StartTokenLoad(FirstModel, base);
    } else {
      first := host.StartLoad(FirstModel, base);
    }
    first.PreloadDone(true);
    FirstModelResolves();
    first.SourceResolved(ResolveAssetUrl(FirstModel, _ => Err(""), _ => Err("")));
    first.Cleanup();
    var second: LoadRun;
    if perRunFlag {
      second := host.StartTokenLoad(SecondModel, base);
    } else {
      second := host.StartLoad(SecondModel, base);
    }
  }

  /**
   * With the shared `isActiveRef`, the second run has switched the flag
   * back on, so the superseded run shows the first model when it arrives
   * late, reports its part count, and its group is never disposed (its
   * cleanup has already run).
   */
  method SupersededLoadAsWritten(g1: Node) returns (shown: Option<Node>, reported: seq<nat>, released: seq<nat>)
    ensures shown == Some(g1) && reported == [|g1.children|] && released == []
  {
    var host, first := SupersedeFirstLoad(false);
    FirstModelLoads(g1);
    var settled := LoadLDrawGroup(Resolved(UrlContent, FirstModel), DeliversLater(g1));
    first.LoadSettled(settled.value);
    shown, reported, released := host.group, host.stepCounts, host.disposed;
  }

  /** The same interleaving with a flag per run: the late group is not shown, nothing is reported, and it is disposed. */
  method SupersededLoadWithToken(g1: Node) returns (shown: Option<Node>, reported: seq<nat>, released: seq<nat>)
    ensures shown == None && reported == [] && released == Disposals(g1)
  {
    var host, first := SupersedeFirstLoad(true);
    FirstModelLoads(g1);
    var settled := LoadLDrawGroup(Resolved(UrlContent, FirstModel), DeliversLater(g1));
    first.LoadSettled(settled.value);
    shown, reported, released := host.group, host.stepCounts, host.disposed;
  }
}
