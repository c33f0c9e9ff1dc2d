/** The callbacks of src/dependency.c over DependencyData objects that they update in place. */
module Dependency {
  import opened Common
  import M = DependencyModel

  class DependencyData {
    const path: Option<string>
    const origin: M.Meta
    var dependencies: seq<string>
    var softdependencies: seq<string>
    var repodeps: seq<string>
    var processedDeps: seq<string>
    var removeRpms: Option<seq<string>>
    var installRpms: Option<seq<string>>
    var state: M.Phase
    var wait: M.Wait
    var log: seq<M.Ran>

    constructor Root(m: M.Meta, phase: M.Phase)
      ensures View() == M.Frame(None, m, m.dependencies, m.softdependencies, m.repodeps, [], None, None,
                                phase, M.Nothing, [])
    {
      path, origin := None, m;
      dependencies, softdependencies, repodeps, processedDeps := m.dependencies, m.softdependencies, m.repodeps, [];
      removeRpms, installRpms, state, wait, log := None, None, phase, M.Nothing, [];
    }

    /** g_slice_dup, and the fields that dep_mtdata_finish_cb then assigns. */
    constructor Nested(parent: DependencyData, p: string, m: M.Meta)
      ensures View() == M.Nested(parent.View(), p, m)
    {
      path, origin := Some(p), m.(softdependencies := parent.softdependencies);
      softdependencies, processedDeps := parent.softdependencies, parent.processedDeps;
      removeRpms, installRpms, state := parent.removeRpms, parent.installRpms, parent.state;
      dependencies, repodeps, wait, log := m.dependencies, m.repodeps, M.Nothing, [];
    }

    ghost function View(): M.Frame
      reads this
    {
      M.Frame(path, origin, dependencies, softdependencies, repodeps, processedDeps, removeRpms, installRpms,
              state, wait, log)
    }
  }

  ghost function Views(frames: seq<DependencyData>): (v: seq<M.Frame>)
    reads frames
    ensures |v| == |frames|
  {
    if frames == [] then [] else Views(frames[..|frames| - 1]) + [frames[|frames| - 1].View()]
  }

  twostate lemma {:induction false} SameViews(frames: seq<DependencyData>)
    requires forall i :: 0 <= i < |frames| ==> frames[i].View() == old(frames[i].View())
    ensures Views(frames) == old(Views(frames))
    decreases |frames|
  {
    if frames != [] {
      SameViews(frames[..|frames| - 1]);
    }
  }

  /** The loop of dependency_rpm that fills the two buffers. */
  method SplitPackages(deps: seq<string>) returns (removes: seq<string>, installs: seq<string>)
    ensures removes == M.Removals(deps) && installs == M.Installs(deps)
  {
    removes, installs := [], [];
    var l := deps;
    while l != []
      invariant removes + M.Removals(l) == M.Removals(deps)
      invariant installs + M.Installs(l) == M.Installs(deps)
      decreases |l|
    {
      if M.IsRemoval(l[0]) {
        removes := removes + [l[0][1..]];
      } else {
        installs := installs + [l[0]];
      }
      l := l[1..];
    }
  }

  /** A resolver run: the stack of DependencyData linked by their callbacks, top last. */
  class DependencyRun {
    const c: M.Config
    var frames: seq<DependencyData>
    ghost var calls: seq<Option<M.Error>>
    ghost var requested: set<string>
    ghost var finished: seq<M.Finished>

    ghost predicate Valid()
      reads this
    {
      forall i, j :: 0 <= i < j < |frames| ==> frames[i] != frames[j]
    }

    ghost function View(): M.Resolver
      reads this, frames
    {
      M.Resolver(Views(frames), calls, requested, finished)
    }

    /** restraint_install_dependencies */
    constructor (c: M.Config, m: M.Meta)
      ensures Valid() && (forall d :: d in frames ==> fresh(d)) && View() == M.Start(c, m) && this.c == c
    {
      var f := new DependencyData.Root(m, if c.fetchMethod.Unpack? then M.Repo else M.Rpm);
      this.c, frames, calls, requested, finished := c, [f], [], {}, [];
      new;
      assert frames[..|frames| - 1] == [];
      Handler();
    }

    /** An update of the frame on top changes nothing else. */
    twostate lemma TopUpdated()
      requires frames != [] && frames == old(frames)
      requires calls == old(calls) && requested == old(requested) && finished == old(finished)
      requires forall i :: 0 <= i < |frames| - 1 ==> frames[i].View() == old(frames[i].View())
      ensures View() == M.WithTop(old(View()), frames[|frames| - 1].View())
    {
      SameViews(frames[..|frames| - 1]);
    }

    ghost predicate NoNewFrames(before: seq<DependencyData>)
      reads this
    {
      forall d :: d in frames ==> d in before
    }

    /** dependency_handler */
    method Handler()
      requires Valid() && frames != []
      modifies this, frames
      ensures Valid() && View() == old(M.Handler(c, View())) && NoNewFrames(old(frames))
      decreases |frames|, M.Rank(frames[|frames| - 1].state), 1
    {
      match frames[|frames| - 1].state
      case Repo => FetchRepodeps();
      case Rpm => Rpm();
      case SingleRpm => SingleRpm();
      case SoftRpm => SoftRpm();
      case Done => Finish(None);
    }

    /** dependency_rpm */
    method Rpm()
      requires Valid() && frames != [] && frames[|frames| - 1].state == M.Rpm
      modifies this, frames
      ensures Valid() && View() == old(M.Handler(c, View())) && NoNewFrames(old(frames))
      decreases |frames|, M.Rank(M.Rpm), 0
    {
      var f := frames[|frames| - 1];
      if f.dependencies != [] {
        var removes, installs := SplitPackages(f.dependencies);
        f.removeRpms, f.installRpms := Some(removes), Some(installs);
        TopUpdated();
        BatchRpms();
      } else {
        NextState(f, M.SoftRpm);
      }
    }

    /** dependency_single_rpm */
    method SingleRpm()
      requires Valid() && frames != [] && frames[|frames| - 1].state == M.SingleRpm
      modifies this, frames
      ensures Valid() && View() == old(M.Handler(c, View())) && NoNewFrames(old(frames))
      decreases |frames|, M.Rank(M.SingleRpm), 0
    {
      var f := frames[|frames| - 1];
      if f.dependencies != [] {
        f.wait := M.Process(M.One(f.dependencies[0]), M.SingleCb);
        TopUpdated();
      } else {
        NextState(f, M.SoftRpm);
      }
    }

    /** dependency_soft_rpm */
    method SoftRpm()
      requires Valid() && frames != [] && frames[|frames| - 1].state == M.SoftRpm
      modifies this, frames
      ensures Valid() && View() == old(M.Handler(c, View())) && NoNewFrames(old(frames))
      decreases |frames|, M.Rank(M.SoftRpm), 0
    {
      var f := frames[|frames| - 1];
      if f.softdependencies != [] {
        f.wait := M.Process(M.One(f.softdependencies[0]), M.SoftCb);
        TopUpdated();
      } else {
        NextState(f, M.Done);
      }
    }

    /** Enters the next phase of the frame on top. */
    method NextState(f: DependencyData, state: M.Phase)
      requires Valid() && frames != [] && f == frames[|frames| - 1]
      modifies this, frames
      ensures Valid() && NoNewFrames(old(frames))
      ensures View() == old(M.Handler(c, M.WithTop(View(), f.View().(phase := state))))
      decreases |frames|, M.Rank(state), 2
    {
      f.state := state;
      TopUpdated();
      Handler();
    }

    /** restraint_fetch_repodeps */
    method FetchRepodeps()
      requires Valid() && frames != []
      modifies this, frames
      ensures Valid() && View() == old(M.FetchRepodeps(c, View())) && NoNewFrames(old(frames))
      decreases |frames|, 7
    {
      var f := frames[|frames| - 1];
      if f.repodeps != [] {
        f.wait := M.Fetch(c.pathOf(f.repodeps[0]));
      } else {
        NextState(f, M.Rpm);
      }
    }

    /** dependency_batch_rpms */
    method BatchRpms()
      requires Valid() && frames != []
      modifies this, frames
      ensures Valid() && View() == old(M.BatchRpms(c, View())) && NoNewFrames(old(frames))
      decreases |frames|, 5, 1
    {
      var f := frames[|frames| - 1];
      if f.removeRpms.Some? && f.removeRpms.value != [] {
        f.wait := M.Process(M.Remove(f.removeRpms.value), M.BatchRemoveCb);
        TopUpdated();
      } else {
        f.removeRpms := None;
        TopUpdated();
        InstallBatch();
      }
    }

    /** The half of dependency_batch_rpms that is left once the removals are dealt with. */
    method InstallBatch()
      requires Valid() && frames != [] && frames[|frames| - 1].removeRpms == None
      modifies this, frames
      ensures Valid() && View() == old(M.BatchRpms(c, View())) && NoNewFrames(old(frames))
      decreases |frames|, 5, 0
    {
      var f := frames[|frames| - 1];
      if f.installRpms.Some? && f.installRpms.value != [] {
        f.wait := M.Process(M.Install(f.installRpms.value), M.BatchInstallCb);
        TopUpdated();
      } else {
        f.installRpms := None;
        TopUpdated();
        NextState(f, M.SoftRpm);
      }
    }

    /** The finish_cb of the frame on top, which is ldep_finish_cb unless it is the root. */
    method Finish(error: Option<M.Error>)
      requires Valid() && frames != []
      modifies this, frames
      ensures Valid() && View() == old(M.Finish(c, View(), error)) && NoNewFrames(old(frames))
      decreases |frames|, 0
    {
      hide M.Advance, M.FetchRepodeps, M.Handler;
      var f := frames[|frames| - 1];
      frames := frames[..|frames| - 1];
      if error.None? {
        finished := finished + [M.Finished(f.path, f.origin, f.log)];
      }
      if frames == [] {
        calls := calls + [error];
      } else if error.Some? {
        Finish(error);
      } else {
        Advance();
      }
    }

    method Advance()
      requires Valid() && frames != []
      modifies this, frames
      ensures Valid() && View() == old(M.Advance(c, View())) && NoNewFrames(old(frames))
      decreases |frames|, 9
    {
      var f := frames[|frames| - 1];
      f.repodeps, f.wait := Next(f.repodeps), M.Nothing;
      FetchRepodeps();
    }

    /** fetch_repodeps_finish_callback */
    method OnFetch(error: Option<M.Error>)
      requires Valid() && frames != [] && frames[|frames| - 1].wait.Fetch?
      modifies this, frames
      ensures Valid() && View() == old(M.OnFetch(c, View(), error)) && NoNewFrames(old(frames))
    {
      var f := frames[|frames| - 1];
      var p := f.wait.path;
      if error.Some? {
        Finish(error);
      } else if p !in f.processedDeps {
        f.processedDeps, f.wait := [p] + f.processedDeps, M.Metadata(p);
        requested := requested + {p};
        assert View().frames == M.WithTop(old(View()), f.View()).frames;
      } else {
        Advance();
      }
    }

    /** Puts a frame for the repository at `p` on top of the one that asked for it. */
    method OpenNested(p: string, m: M.Meta)
      requires Valid() && frames != []
      modifies this, frames[|frames| - 1]
      ensures Valid() && frames != [] && forall d :: d in frames ==> d in old(frames) || fresh(d)
      ensures View() == old(M.WithNested(View(), p, m))
    {
      var f := frames[|frames| - 1];
      var child := new DependencyData.Nested(f, p, m);
      f.wait := M.Child(p);
      TopUpdated();
      ghost var waiting := frames;
      frames := frames + [child];
      assert frames[..|frames| - 1] == waiting;
    }

    /** dep_mtdata_finish_cb */
    method OnMetadata(error: Option<M.Error>, meta: Option<M.Meta>)
      requires Valid() && frames != [] && frames[|frames| - 1].wait.Metadata?
      modifies this, frames
      ensures Valid() && View() == old(M.OnMetadata(c, View(), error, meta))
      ensures forall d :: d in frames ==> d in old(frames) || fresh(d)
    {
      var f := frames[|frames| - 1];
      var p := f.wait.path;
      if error.Some? {
        Finish(error);
      } else if meta.Some? {
        OpenNested(p, meta.value);
        assert forall i :: 0 <= i < |frames| ==> frames[i] in frames;
        FetchRepodeps();
      } else {
        Advance();
      }
    }

    /** What all process callbacks do with the exit code: the errors that end the frame. */
    method OnProcess(rc: int, cancelled: bool)
      requires Valid() && frames != [] && frames[|frames| - 1].wait.Process?
      modifies this, frames
      ensures Valid() && View() == old(M.OnProcess(c, View(), rc, cancelled)) && NoNewFrames(old(frames))
    {
      hide M.Handler, M.BatchRpms, M.Finish;
      var f := frames[|frames| - 1];
      var callback := f.wait.callback;
      f.log, f.wait := f.log + [M.Ran(f.wait.command, rc)], M.Nothing;
      TopUpdated();
      if cancelled {
        Finish(Some(M.Cancelled));
      } else if callback.SoftCb? {
        f.softdependencies := Next(f.softdependencies);
        TopUpdated();
        Handler();
      } else if !c.ignoreFailedInstall && rc != 0 {
        Finish(Some(M.NonZero(rc)));
      } else {
        HardDependencyDone(callback, rc);
      }
    }

    /** dependency_callback, dependency_batch_remove_cb and dependency_batch_install_cb. */
    method HardDependencyDone(callback: M.Callback, rc: int)
      requires Valid() && frames != [] && !callback.SoftCb? && (c.ignoreFailedInstall || rc == 0)
      modifies this, frames
      ensures Valid() && NoNewFrames(old(frames))
      ensures View() == old(M.HardCallback(c, View(), callback, rc))
    {
      hide M.Handler, M.BatchRpms;
      var f := frames[|frames| - 1];
      if callback.SingleCb? {
        f.dependencies := Next(f.dependencies);
        TopUpdated();
        Handler();
      } else if rc != 0 {
        f.removeRpms, f.installRpms, f.state := None, None, M.SingleRpm;
        TopUpdated();
        Handler();
      } else if callback.BatchRemoveCb? {
        f.removeRpms := None;
        TopUpdated();
        BatchRpms();
      } else {
        f.installRpms, f.dependencies, f.state := None, [], M.SoftRpm;
        TopUpdated();
        Handler();
      }
    }
  }
}
