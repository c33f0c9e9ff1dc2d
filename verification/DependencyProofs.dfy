/** Proofs that one step of the resolver keeps its invariants and uses up its measure. */
module DependencyProofs {
  import opened Common
  import opened DependencyModel
  import opened DependencyInvariants

  // ---- an error unwinds the whole stack ---------------------------------------------------------

  lemma {:induction false} ErrorUnwinds(c: Config, r: Resolver, e: Error)
    requires r.frames != []
    ensures Finish(c, r, Some(e)) == Resolver([], r.calls + [Some(e)], r.requested, r.finished)
    decreases |r.frames|
  {
    if Below(r) != [] {
      ErrorUnwinds(c, Resolver(Below(r), r.calls, r.requested, r.finished), e);
    }
  }

  // ---- the stack --------------------------------------------------------------------------------

  lemma TopKeepsStack(c: Config, root: Meta, r: Resolver, f: Frame)
    requires r.frames != [] && Chain(c, root, r.frames) && r.calls == []
    requires forall d :: d in r.finished ==> FinishedOk(c, root, d)
    requires FrameOk(c, f) && f.origin == Top(r).origin && f.path == Top(r).path && !f.wait.Child?
    ensures Stack(c, root, WithTop(r, f))
  {
    hide FrameOk, FinishedOk;
    var fs := Below(r) + [f];
    assert forall i :: 0 <= i < |fs| - 1 ==> fs[i] == r.frames[i];
    forall i | 0 < i < |fs| ensures Linked(fs[i - 1], fs[i]) {
      assert Linked(r.frames[i - 1], r.frames[i]);
    }
  }

  /** A frame that starts its batches, and one that has nothing to put in them. */
  lemma RpmFrame(c: Config, f: Frame)
    requires FrameOk(c, f) && f.phase.Rpm? && f.wait.Nothing? && f.removeRpms.None? && f.installRpms.None?
    ensures FrameOk(c, f.(removeRpms := Some(Removals(f.dependencies)), installRpms := Some(Installs(f.dependencies))))
    ensures f.dependencies == [] ==> FrameOk(c, f.(phase := SoftRpm))
  {
    assert f.log[..|f.log| - 0] == [] && f.log[|f.log| - 0..] == [];
  }

  lemma SingleFrame(c: Config, f: Frame)
    requires FrameOk(c, f) && f.phase.SingleRpm? && f.wait.Nothing?
    ensures f.dependencies != [] ==> FrameOk(c, f.(wait := Process(One(f.dependencies[0]), SingleCb)))
    ensures f.dependencies == [] ==> FrameOk(c, f.(phase := SoftRpm))
  {
    assert f.log[..|f.log| - 0] == f.log;
    assert Singles(f.origin.dependencies)[..|f.origin.dependencies|] == Singles(f.origin.dependencies);
  }

  lemma SoftFrame(c: Config, f: Frame)
    requires FrameOk(c, f) && f.phase.SoftRpm? && f.wait.Nothing?
    ensures f.softdependencies != [] ==> FrameOk(c, f.(wait := Process(One(f.softdependencies[0]), SoftCb)))
    ensures f.softdependencies == [] ==> FrameOk(c, f.(phase := Done))
  {
    assert Singles(f.origin.softdependencies)[..|f.origin.softdependencies|] == Singles(f.origin.softdependencies);
  }

  /** Running the frame on top until it waits again. */
  lemma {:induction false} HandlerStack(c: Config, root: Meta, r: Resolver)
    requires r.frames != [] && Stack(c, root, r) && Top(r).wait.Nothing?
    requires Top(r).phase.Rpm? ==> Top(r).removeRpms.None? && Top(r).installRpms.None?
    ensures Stack(c, root, Handler(c, r)) && Settled(Handler(c, r)) && Quiet(Handler(c, r))
    decreases |r.frames|, Rank(Top(r).phase), 0
  {
    assert FrameOk(c, Top(r));
    hide Chain, FinishedOk;
    var f := Top(r);
    match f.phase
    case Repo => FetchRepodepsStack(c, root, r);
    case Rpm =>
      RpmFrame(c, f);
      if f.dependencies != [] {
        var f' := f.(removeRpms := Some(Removals(f.dependencies)), installRpms := Some(Installs(f.dependencies)));
        TopKeepsStack(c, root, r, f');
        BatchRpmsStack(c, root, WithTop(r, f'));
      } else {
        NextPhaseStack(c, root, r, SoftRpm);
      }
    case SingleRpm =>
      SingleFrame(c, f);
      if f.dependencies != [] {
        TopKeepsStack(c, root, r, f.(wait := Process(One(f.dependencies[0]), SingleCb)));
      } else {
        NextPhaseStack(c, root, r, SoftRpm);
      }
    case SoftRpm =>
      SoftFrame(c, f);
      if f.softdependencies != [] {
        TopKeepsStack(c, root, r, f.(wait := Process(One(f.softdependencies[0]), SoftCb)));
      } else {
        NextPhaseStack(c, root, r, Done);
      }
    case Done => FinishStack(c, root, r);
  }

  lemma {:induction false} NextPhaseStack(c: Config, root: Meta, r: Resolver, phase: Phase)
    requires r.frames != [] && Stack(c, root, r) && Top(r).wait.Nothing?
    requires phase.SoftRpm? || phase.Done?
    requires FrameOk(c, Top(r).(phase := phase))
    ensures var s := WithTop(r, Top(r).(phase := phase));
            Stack(c, root, Handler(c, s)) && Settled(Handler(c, s)) && Quiet(Handler(c, s))
    decreases |r.frames|, Rank(phase), 1
  {
    hide Chain, FinishedOk;
    TopKeepsStack(c, root, r, Top(r).(phase := phase));
    HandlerStack(c, root, WithTop(r, Top(r).(phase := phase)));
  }

  lemma {:induction false} FetchRepodepsStack(c: Config, root: Meta, r: Resolver)
    requires r.frames != [] && Stack(c, root, r) && Top(r).wait.Nothing? && Top(r).phase.Repo?
    ensures Stack(c, root, FetchRepodeps(c, r)) && Settled(FetchRepodeps(c, r)) && Quiet(FetchRepodeps(c, r))
    decreases |r.frames|, 7
  {
    assert FrameOk(c, Top(r));
    hide Chain, FinishedOk;
    var f := Top(r);
    if f.repodeps != [] {
      TopKeepsStack(c, root, r, f.(wait := Fetch(c.pathOf(f.repodeps[0]))));
    } else {
      TopKeepsStack(c, root, r, f.(phase := Rpm));
      HandlerStack(c, root, WithTop(r, f.(phase := Rpm)));
    }
  }

  lemma {:induction false} BatchRpmsStack(c: Config, root: Meta, r: Resolver)
    requires r.frames != [] && Stack(c, root, r) && Top(r).wait.Nothing?
    requires Top(r).phase.Rpm? && Top(r).installRpms.Some?
    ensures Stack(c, root, BatchRpms(c, r)) && Settled(BatchRpms(c, r)) && Quiet(BatchRpms(c, r))
    decreases |r.frames|, 5
  {
    assert FrameOk(c, Top(r));
    hide Chain, FinishedOk;
    var f := Top(r);
    if f.removeRpms.Some? && f.removeRpms.value != [] {
      TopKeepsStack(c, root, r, f.(wait := Process(Remove(f.removeRpms.value), BatchRemoveCb)));
    } else if f.installRpms.value != [] {
      TopKeepsStack(c, root, r, f.(removeRpms := None, wait := Process(Install(f.installRpms.value), BatchInstallCb)));
    } else {
      var f' := f.(removeRpms := None, installRpms := None, phase := SoftRpm);
      BatchedFrame(c, f);
      hide FrameOk;
      TopKeepsStack(c, root, r, f');
      HandlerStack(c, root, WithTop(r, f'));
    }
  }

  /** A frame whose batches are both over. */
  lemma BatchedFrame(c: Config, f: Frame)
    requires FrameOk(c, f) && f.phase.Rpm? && f.wait.Nothing? && f.installRpms == Some([])
    requires f.removeRpms.Some? ==> f.removeRpms.value == []
    ensures FrameOk(c, f.(removeRpms := None, installRpms := None, phase := SoftRpm))
  {
    assert f.log[..|f.log| - 0] == RemovePart(f.origin.dependencies) + InstallPart(f.origin.dependencies);
  }

  lemma {:induction false} FinishStack(c: Config, root: Meta, r: Resolver)
    requires r.frames != [] && Stack(c, root, r) && Top(r).phase.Done?
    ensures Stack(c, root, Finish(c, r, None)) && Settled(Finish(c, r, None)) && Quiet(Finish(c, r, None))
    decreases |r.frames|, 0
  {
    var f := Top(r);
    var left := r.finished + [Finished(f.path, f.origin, f.log)];
    assert r.calls == [] && r.calls + [None] == [None];
    assert FinishedOk(c, root, Finished(f.path, f.origin, f.log));
    if Below(r) != [] {
      assert Linked(r.frames[|r.frames| - 2], r.frames[|r.frames| - 1]);
      AdvanceStack(c, root, Resolver(Below(r), r.calls, r.requested, left));
    }
  }

  lemma {:induction false} AdvanceStack(c: Config, root: Meta, r: Resolver)
    requires r.frames != [] && Chain(c, root, r.frames) && r.calls == []
    requires forall d :: d in r.finished ==> FinishedOk(c, root, d)
    requires Top(r).phase.Repo? && !Top(r).wait.Nothing?
    ensures Stack(c, root, Advance(c, r)) && Settled(Advance(c, r)) && Quiet(Advance(c, r))
    decreases |r.frames|, 9
  {
    assert FrameOk(c, Top(r));
    hide Chain, FinishedOk;
    var f := Top(r).(repodeps := Next(Top(r).repodeps), wait := Nothing);
    TopKeepsStack(c, root, r, f);
    FetchRepodepsStack(c, root, WithTop(r, f));
  }

  lemma StartStack(c: Config, m: Meta)
    ensures Stack(c, m, Start(c, m)) && Settled(Start(c, m)) && Quiet(Start(c, m))
  {
    var phase := if c.fetchMethod.Unpack? then Repo else Rpm;
    assert m.repodeps == m.repodeps[|m.repodeps| - |m.repodeps|..];
    var f := Frame(None, m, m.dependencies, m.softdependencies, m.repodeps, [], None, None, phase, Nothing, []);
    HandlerStack(c, m, Resolver([f], [], {}, []));
  }

  // ---- one answer -------------------------------------------------------------------------------

  lemma FetchStack(c: Config, root: Meta, r: Resolver, error: Option<Error>)
    requires Stack(c, root, r) && r.frames != [] && Top(r).wait.Fetch?
    ensures Stack(c, root, OnFetch(c, r, error)) && Settled(OnFetch(c, r, error))
    ensures error.None? ==> Quiet(OnFetch(c, r, error))
  {
    var f := Top(r);
    var p := f.wait.path;
    if error.Some? {
      ErrorUnwinds(c, r, error.value);
    } else if p !in f.processed {
      TopKeepsStack(c, root, r, f.(processed := [p] + f.processed, wait := Metadata(p)));
    } else {
      AdvanceStack(c, root, r);
    }
  }

  lemma NestedChain(c: Config, root: Meta, r: Resolver, p: string, meta: Meta)
    requires r.frames != [] && Chain(c, root, r.frames) && Top(r).wait == Metadata(p)
    ensures Chain(c, root, WithNested(r, p, meta).frames) && FrameOk(c, Nested(Top(r), p, meta))
  {
    var fs := WithNested(r, p, meta).frames;
    var child := Nested(Top(r), p, meta);
    assert FrameOk(c, Top(r));
    assert child.repodeps == child.origin.repodeps[|child.origin.repodeps| - |child.repodeps|..];
    assert FrameOk(c, child) && FrameOk(c, Top(r).(wait := Child(p)));
    hide FrameOk;
    forall i | 0 < i < |fs| ensures Linked(fs[i - 1], fs[i]) {
      if i < |fs| - 1 {
        assert Linked(r.frames[i - 1], r.frames[i]);
      }
    }
  }

  lemma MetadataStack(c: Config, root: Meta, r: Resolver, error: Option<Error>, meta: Option<Meta>)
    requires Stack(c, root, r) && r.frames != [] && Top(r).wait.Metadata?
    ensures Stack(c, root, OnMetadata(c, r, error, meta)) && Settled(OnMetadata(c, r, error, meta))
    ensures error.None? ==> Quiet(OnMetadata(c, r, error, meta))
  {
    var f := Top(r);
    var p := f.wait.path;
    if error.Some? {
      ErrorUnwinds(c, r, error.value);
    } else if meta.Some? {
      NestedChain(c, root, r, p, meta.value);
      hide Chain, FinishedOk;
      FetchRepodepsStack(c, root, WithNested(r, p, meta.value));
    } else {
      AdvanceStack(c, root, r);
    }
  }

  /** What the exit code of an entry adds to the log of a frame in its one-by-one phase. */
  lemma SingleLogs(c: Config, f: Frame, rc: int)
    requires FrameOk(c, f) && f.phase.SingleRpm? && f.wait.Process?
    ensures FrameOk(c, f.(log := f.log + [Ran(f.wait.command, rc)], wait := Nothing,
                          dependencies := Next(f.dependencies)))
  {
    var deps := f.origin.dependencies;
    var n := Consumed(f.dependencies, deps);
    var g := f.(log := f.log + [Ran(f.wait.command, rc)], wait := Nothing, dependencies := Next(f.dependencies));
    assert Consumed(g.dependencies, deps) == n + 1;
    assert g.log[..|g.log| - (n + 1)] == f.log[..|f.log| - n];
    assert g.log[|g.log| - (n + 1)..] == f.log[|f.log| - n..] + [Ran(f.wait.command, rc)];
    assert f.dependencies[0] == deps[n];
  }

  lemma SoftLogs(c: Config, f: Frame, rc: int)
    requires FrameOk(c, f) && f.phase.SoftRpm? && f.wait.Process?
    ensures FrameOk(c, f.(log := f.log + [Ran(f.wait.command, rc)], wait := Nothing,
                          softdependencies := Next(f.softdependencies)))
  {
    hide HardDone;
    var softs := f.origin.softdependencies;
    var n := Consumed(f.softdependencies, softs);
    var g := f.(log := f.log + [Ran(f.wait.command, rc)], wait := Nothing, softdependencies := Next(f.softdependencies));
    assert Consumed(g.softdependencies, softs) == n + 1;
    assert g.log[..|g.log| - (n + 1)] == f.log[..|f.log| - n];
    assert g.log[|g.log| - (n + 1)..] == f.log[|f.log| - n..] + [Ran(f.wait.command, rc)];
    assert f.softdependencies[0] == softs[n];
  }

  /** The next phase of a frame after a batch command has ended with exit code `rc`. */
  function AfterBatch(f: Frame, rc: int): Frame
    requires f.wait.Process?
  {
    var g := f.(log := f.log + [Ran(f.wait.command, rc)], wait := Nothing);
    if rc != 0 then g.(removeRpms := None, installRpms := None, phase := SingleRpm)
    else if f.wait.callback.BatchRemoveCb? then g.(removeRpms := None)
    else g.(installRpms := None, dependencies := [], phase := SoftRpm)
  }

  /** The phase a frame is in while a command of its package phase runs. */
  lemma CallbackPhase(c: Config, f: Frame)
    requires FrameOk(c, f) && f.wait.Process?
    ensures match f.wait.callback
            case SoftCb => f.phase.SoftRpm?
            case SingleCb => f.phase.SingleRpm?
            case _ => f.phase.Rpm?
    ensures f.wait.callback.BatchRemoveCb? ==> f.installRpms.Some?
    ensures f.wait.callback.BatchInstallCb? ==> f.removeRpms.None?
  {
  }

  lemma FailedBatch(c: Config, f: Frame, rc: int)
    requires FrameOk(c, f) && f.phase.Rpm? && f.wait.Process? && c.ignoreFailedInstall && rc != 0
    ensures FrameOk(c, AfterBatch(f, rc))
  {
    var g := AfterBatch(f, rc);
    var deps := f.origin.dependencies;
    assert g.log[..|g.log| - 0] == g.log && g.log[|g.log| - 0..] == [];
    assert g.log[..|g.log| - 1] == f.log;
    assert deps == deps[|deps| - |deps|..];
  }

  lemma RemovedBatch(c: Config, f: Frame)
    requires FrameOk(c, f) && f.phase.Rpm? && f.wait.Process? && f.wait.callback.BatchRemoveCb?
    ensures FrameOk(c, AfterBatch(f, 0))
  {
  }

  lemma InstalledBatch(c: Config, f: Frame)
    requires FrameOk(c, f) && f.phase.Rpm? && f.wait.Process? && f.wait.callback.BatchInstallCb?
    ensures FrameOk(c, AfterBatch(f, 0))
  {
    var g := AfterBatch(f, 0);
    assert g.log[..|g.log| - 0] == g.log && g.log[|g.log| - 0..] == [];
    assert f.origin.softdependencies == f.origin.softdependencies[|f.origin.softdependencies| - |f.origin.softdependencies|..];
  }

  lemma BatchLogs(c: Config, f: Frame, rc: int)
    requires FrameOk(c, f) && f.phase.Rpm? && f.wait.Process? && (c.ignoreFailedInstall || rc == 0)
    ensures FrameOk(c, AfterBatch(f, rc))
  {
    hide FrameOk, AfterBatch;
    CallbackPhase(c, f);
    if rc != 0 {
      FailedBatch(c, f, rc);
    } else if f.wait.callback.BatchRemoveCb? {
      RemovedBatch(c, f);
    } else {
      InstalledBatch(c, f);
    }
  }

  /** The error a process that has ended makes its frame report: dependency_process_errors, and the
    * cancellation that every callback checks first. */
  function ProcessError(c: Config, callback: Callback, rc: int, cancelled: bool): Option<Error> {
    if cancelled then Some(Cancelled)
    else if callback.SoftCb? || c.ignoreFailedInstall || rc == 0 then None
    else Some(NonZero(rc))
  }

  lemma ProcessStack(c: Config, root: Meta, r: Resolver, rc: int, cancelled: bool)
    requires Stack(c, root, r) && r.frames != [] && Top(r).wait.Process?
    ensures Stack(c, root, OnProcess(c, r, rc, cancelled)) && Settled(OnProcess(c, r, rc, cancelled))
    ensures ProcessError(c, Top(r).wait.callback, rc, cancelled).None? ==> Quiet(OnProcess(c, r, rc, cancelled))
  {
    var f := Top(r);
    var g := f.(log := f.log + [Ran(f.wait.command, rc)], wait := Nothing);
    CallbackPhase(c, f);
    hide Chain, FinishedOk, FrameOk;
    if cancelled {
      ErrorUnwinds(c, WithTop(r, g), Cancelled);
    } else if f.wait.callback.SoftCb? {
      SoftLogs(c, f, rc);
      TopKeepsStack(c, root, r, g.(softdependencies := Next(f.softdependencies)));
      HandlerStack(c, root, WithTop(r, g.(softdependencies := Next(f.softdependencies))));
    } else if !c.ignoreFailedInstall && rc != 0 {
      ErrorUnwinds(c, WithTop(r, g), NonZero(rc));
    } else if f.wait.callback.SingleCb? {
      SingleLogs(c, f, rc);
      TopKeepsStack(c, root, r, g.(dependencies := Next(f.dependencies)));
      HandlerStack(c, root, WithTop(r, g.(dependencies := Next(f.dependencies))));
    } else {
      BatchLogs(c, f, rc);
      TopKeepsStack(c, root, r, AfterBatch(f, rc));
      if rc == 0 && f.wait.callback.BatchRemoveCb? {
        BatchRpmsStack(c, root, WithTop(r, AfterBatch(f, rc)));
      } else {
        HandlerStack(c, root, WithTop(r, AfterBatch(f, rc)));
      }
    }
  }

  /** The error an answer makes the frame on top report, if any. */
  function Failing(c: Config, r: Resolver, e: Event): Option<Error>
    requires Enabled(r, e)
  {
    match e
    case FetchDone(error) => error
    case MetadataDone(error, _) => error
    case ProcessDone(rc, cancelled) => ProcessError(c, Top(r).wait.callback, rc, cancelled)
  }

  /** Every answer leaves the stack in order. */
  lemma StepStack(c: Config, root: Meta, r: Resolver, e: Event)
    requires Stack(c, root, r) && Enabled(r, e)
    ensures Stack(c, root, Step(c, r, e)) && Settled(Step(c, r, e))
    ensures Failing(c, r, e).None? ==> Quiet(Step(c, r, e))
  {
    match e
    case FetchDone(error) => FetchStack(c, root, r, error);
    case MetadataDone(error, meta) => MetadataStack(c, root, r, error, meta);
    case ProcessDone(rc, cancelled) => ProcessStack(c, root, r, rc, cancelled);
  }
}
