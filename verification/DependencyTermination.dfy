/** The measure of the resolver: every answer uses some of it up. */
module DependencyTermination {
  import opened Common
  import opened DependencyModel
  import opened DependencyInvariants
  import opened DependencyProofs

  lemma {:induction false} WorkGrowsWithList(b: nat, n: nat, k: nat, k': nat)
    requires k <= k'
    ensures Work(b, n, k) <= Work(b, n, k')
    decreases k' - k
  {
    if k < k' {
      WorkGrowsWithList(b, n, k + 1, k');
    }
  }

  lemma {:induction false} WorkGrowsWithPaths(b: nat, n: nat, k: nat)
    ensures Work(b, n, k) <= Work(b, n + 1, k)
    decreases n, k
  {
    if k > 0 {
      if n > 0 {
        WorkGrowsWithPaths(b, n - 1, b);
      }
      WorkGrowsWithPaths(b, n, k - 1);
    }
  }

  /** Work of the frames below the top, and of the top as its own. */
  function Rest(b: nat, u: set<string>, r: Resolver): nat
    requires r.frames != []
  {
    StackWork(b, u, Below(r))
  }

  /** An upper bound on what a frame that runs dependency_handler still has to do. */
  function HandlerWork(b: nat, u: set<string>, f: Frame): nat {
    match f.phase
    case Repo => Work(b, Unprocessed(u, f.processed), |f.repodeps|)
    case Rpm => 2 + |f.dependencies| + |f.softdependencies|
    case SingleRpm => |f.dependencies| + |f.softdependencies|
    case SoftRpm => |f.softdependencies|
    case Done => 0
  }

  function BatchWork(f: Frame): nat {
    (if f.removeRpms.Some? && f.removeRpms.value != [] then 2
     else if f.installRpms.Some? then 1 else 0) + |f.dependencies| + |f.softdependencies|
  }

  lemma TopCounts(b: nat, u: set<string>, r: Resolver, f: Frame)
    requires r.frames != []
    ensures StackWork(b, u, WithTop(r, f).frames) == Rest(b, u, r) + FrameWork(b, u, f)
    ensures StackWork(b, u, r.frames) == Rest(b, u, r) + FrameWork(b, u, Top(r))
  {
  }

  lemma TopFits(c: Config, u: set<string>, b: nat, r: Resolver, f: Frame)
    requires r.frames != [] && FramesFit(c, u, b, r.frames) && FrameFits(c, u, b, f)
    ensures FramesFit(c, u, b, WithTop(r, f).frames)
  {
  }

  /** The frame on top goes on as `f`, which fits and has at most `n` answers left. */
  predicate Goes(c: Config, u: set<string>, b: nat, r: Resolver, s: Resolver, n: nat)
    requires r.frames != []
  {
    FramesFit(c, u, b, s.frames) && StackWork(b, u, s.frames) <= Rest(b, u, r) + n
  }

  lemma WaitUses(c: Config, u: set<string>, b: nat, r: Resolver, f: Frame)
    requires r.frames != [] && FramesFit(c, u, b, r.frames) && FrameFits(c, u, b, f)
    ensures Goes(c, u, b, r, WithTop(r, f), FrameWork(b, u, f))
  {
    TopFits(c, u, b, r, f);
    TopCounts(b, u, r, f);
  }

  lemma {:induction false} HandlerUses(c: Config, u: set<string>, b: nat, r: Resolver)
    requires r.frames != [] && FramesFit(c, u, b, r.frames) && Top(r).wait.Nothing?
    ensures Goes(c, u, b, r, Handler(c, r), HandlerWork(b, u, Top(r)))
    decreases |r.frames|, Rank(Top(r).phase), 0
  {
    hide StackWork, Work, Unprocessed;
    var f := Top(r);
    match f.phase
    case Repo => FetchRepodepsUses(c, u, b, r);
    case Rpm =>
      if f.dependencies != [] {
        var f' := f.(removeRpms := Some(Removals(f.dependencies)), installRpms := Some(Installs(f.dependencies)));
        TopFits(c, u, b, r, f');
        BatchRpmsUses(c, u, b, WithTop(r, f'));
      } else {
        LaterPhaseUses(c, u, b, r, f.(phase := SoftRpm));
      }
    case SingleRpm =>
      if f.dependencies == [] {
        LaterPhaseUses(c, u, b, r, f.(phase := SoftRpm));
      } else {
        WaitUses(c, u, b, r, f.(wait := Process(One(f.dependencies[0]), SingleCb)));
      }
    case SoftRpm =>
      if f.softdependencies == [] {
        LaterPhaseUses(c, u, b, r, f.(phase := Done));
      } else {
        WaitUses(c, u, b, r, f.(wait := Process(One(f.softdependencies[0]), SoftCb)));
      }
    case Done => FinishUses(c, u, b, r);
  }

  lemma {:induction false} LaterPhaseUses(c: Config, u: set<string>, b: nat, r: Resolver, f: Frame)
    requires r.frames != [] && FramesFit(c, u, b, r.frames) && FrameFits(c, u, b, f) && f.wait.Nothing?
    ensures Goes(c, u, b, r, Handler(c, WithTop(r, f)), HandlerWork(b, u, f))
    decreases |r.frames|, Rank(f.phase), 1
  {
    hide StackWork, HandlerWork, FrameFits, Handler;
    TopFits(c, u, b, r, f);
    HandlerUses(c, u, b, WithTop(r, f));
  }

  lemma {:induction false} FetchRepodepsUses(c: Config, u: set<string>, b: nat, r: Resolver)
    requires r.frames != [] && FramesFit(c, u, b, r.frames) && Top(r).wait.Nothing? && Top(r).phase.Repo?
    ensures Goes(c, u, b, r, FetchRepodeps(c, r), Work(b, Unprocessed(u, Top(r).processed), |Top(r).repodeps|))
    decreases |r.frames|, 7
  {
    hide StackWork, Unprocessed;
    var f := Top(r);
    assert FrameFits(c, u, b, f);
    if f.repodeps == [] {
      LaterPhaseUses(c, u, b, r, f.(phase := Rpm));
    } else {
      WaitUses(c, u, b, r, f.(wait := Fetch(c.pathOf(f.repodeps[0]))));
    }
  }

  lemma {:induction false} BatchRpmsUses(c: Config, u: set<string>, b: nat, r: Resolver)
    requires r.frames != [] && FramesFit(c, u, b, r.frames) && Top(r).phase.Rpm? && Top(r).wait.Nothing?
    ensures Goes(c, u, b, r, BatchRpms(c, r), BatchWork(Top(r)))
    decreases |r.frames|, 5
  {
    hide StackWork, Work, Unprocessed;
    var f := Top(r);
    assert FrameFits(c, u, b, f);
    if f.removeRpms.Some? && f.removeRpms.value != [] {
      WaitUses(c, u, b, r, f.(wait := Process(Remove(f.removeRpms.value), BatchRemoveCb)));
    } else if f.installRpms.Some? && f.installRpms.value != [] {
      WaitUses(c, u, b, r, f.(removeRpms := None, wait := Process(Install(f.installRpms.value), BatchInstallCb)));
    } else {
      LaterPhaseUses(c, u, b, r, f.(removeRpms := None, installRpms := None, phase := SoftRpm));
    }
  }

  /** A frame that waits for its current repodep has counted the rest of them. */
  lemma NextIsCounted(b: nat, u: set<string>, f: Frame)
    requires f.phase.Repo?
    ensures Work(b, Unprocessed(u, f.processed), |Next(f.repodeps)|) <= FrameWork(b, u, f)
  {
    WorkGrowsWithList(b, Unprocessed(u, f.processed), |Next(f.repodeps)|, |f.repodeps|);
  }

  lemma {:induction false} FinishUses(c: Config, u: set<string>, b: nat, r: Resolver)
    requires r.frames != [] && FramesFit(c, u, b, r.frames)
    ensures Goes(c, u, b, r, Finish(c, r, None), 0)
    decreases |r.frames|, 0
  {
    hide FrameFits, FrameWork, Work;
    if Below(r) != [] {
      var f := Top(r);
      var s := Resolver(Below(r), r.calls, r.requested, r.finished + [Finished(f.path, f.origin, f.log)]);
      AdvanceUses(c, u, b, s);
      NextIsCounted(b, u, Top(s));
      assert StackWork(b, u, s.frames) == Rest(b, u, s) + FrameWork(b, u, Top(s));
    }
  }

  lemma {:induction false} AdvanceUses(c: Config, u: set<string>, b: nat, r: Resolver)
    requires r.frames != [] && FramesFit(c, u, b, r.frames) && Top(r).phase.Repo?
    ensures Goes(c, u, b, r, Advance(c, r), Work(b, Unprocessed(u, Top(r).processed), |Next(Top(r).repodeps)|))
    decreases |r.frames|, 9
  {
    hide StackWork, Work, Unprocessed;
    var f := Top(r).(repodeps := Next(Top(r).repodeps), wait := Nothing);
    TopFits(c, u, b, r, f);
    FetchRepodepsUses(c, u, b, WithTop(r, f));
  }

  // ---- one answer -------------------------------------------------------------------------------

  lemma ProcessingShrinks(u: set<string>, processed: seq<string>, p: string)
    requires p in u && p !in processed
    ensures Unprocessed(u, [p] + processed) + 1 == Unprocessed(u, processed)
  {
    var before := u - (set q | q in processed);
    assert u - (set q | q in [p] + processed) == before - {p};
  }

  /** A new path trades one unprocessed path for the work of its frame. */
  lemma NewPathUses(c: Config, u: set<string>, b: nat, f: Frame, p: string)
    requires f.phase.Repo? && f.wait.Fetch? && f.repodeps != [] && p in u && p !in f.processed
    ensures FrameWork(b, u, f.(processed := [p] + f.processed, wait := Metadata(p))) < FrameWork(b, u, f)
  {
    var n := Unprocessed(u, f.processed);
    ProcessingShrinks(u, f.processed, p);
    WorkGrowsWithPaths(b, n - 1, |f.repodeps| - 1);
    assert Work(b, n, |f.repodeps|) == 2 + Work(b, n - 1, b) + Work(b, n, |f.repodeps| - 1);
  }

  lemma FetchUses(c: Config, root: Meta, u: set<string>, b: nat, r: Resolver, error: Option<Error>)
    requires Stack(c, root, r) && r.frames != [] && Top(r).wait.Fetch? && FramesFit(c, u, b, r.frames)
    ensures var s := OnFetch(c, r, error);
            FramesFit(c, u, b, s.frames) && StackWork(b, u, s.frames) < StackWork(b, u, r.frames)
  {
    var f := Top(r);
    var p := f.wait.path;
    assert FrameOk(c, f);
    TopCounts(b, u, r, f);
    if error.Some? {
      ErrorUnwinds(c, r, error.value);
    } else if p !in f.processed {
      var f' := f.(processed := [p] + f.processed, wait := Metadata(p));
      NewPathUses(c, u, b, f, p);
      TopCounts(b, u, r, f');
      TopFits(c, u, b, r, f');
    } else {
      AdvanceUses(c, u, b, r);
    }
  }

  lemma NestedUses(c: Config, u: set<string>, b: nat, r: Resolver, meta: Meta)
    requires r.frames != [] && Top(r).wait.Metadata? && FramesFit(c, u, b, r.frames) && Top(r).phase.Repo?
    requires Fits(c, u, b, meta)
    ensures var s := FetchRepodeps(c, WithNested(r, Top(r).wait.path, meta));
            FramesFit(c, u, b, s.frames) && StackWork(b, u, s.frames) < StackWork(b, u, r.frames)
  {
    var f := Top(r);
    var waiting := WithTop(r, f.(wait := Child(f.wait.path)));
    TopFits(c, u, b, r, Top(waiting));
    TopCounts(b, u, r, Top(waiting));
    TopCounts(b, u, r, f);
    var s := WithNested(r, f.wait.path, meta);
    assert Below(s) == waiting.frames && Top(s) == Nested(f, f.wait.path, meta);
    assert FrameFits(c, u, b, Top(s));
    WorkGrowsWithList(b, Unprocessed(u, f.processed), |meta.repodeps|, b);
    assert Unprocessed(u, Top(s).processed) == Unprocessed(u, f.processed);
    hide StackWork, FrameFits, Work, FetchRepodeps, Unprocessed;
    FetchRepodepsUses(c, u, b, s);
  }

  lemma MetadataUses(c: Config, root: Meta, u: set<string>, b: nat, r: Resolver,
                     error: Option<Error>, meta: Option<Meta>)
    requires Stack(c, root, r) && r.frames != [] && Top(r).wait.Metadata? && FramesFit(c, u, b, r.frames)
    requires meta.Some? ==> Fits(c, u, b, meta.value)
    ensures var s := OnMetadata(c, r, error, meta);
            FramesFit(c, u, b, s.frames) && StackWork(b, u, s.frames) < StackWork(b, u, r.frames)
  {
    var f := Top(r);
    assert FrameOk(c, f);
    TopCounts(b, u, r, f);
    hide StackWork, FrameFits, Chain;
    if error.Some? {
      ErrorUnwinds(c, r, error.value);
    } else if meta.Some? {
      NestedUses(c, u, b, r, meta.value);
    } else {
      AdvanceUses(c, u, b, r);
    }
  }

  lemma HandlerUsesTop(c: Config, u: set<string>, b: nat, r: Resolver, f: Frame)
    requires r.frames != [] && FramesFit(c, u, b, r.frames) && FrameFits(c, u, b, f) && f.wait.Nothing?
    requires HandlerWork(b, u, f) < FrameWork(b, u, Top(r))
    ensures var s := Handler(c, WithTop(r, f));
            FramesFit(c, u, b, s.frames) && StackWork(b, u, s.frames) < StackWork(b, u, r.frames)
  {
    TopCounts(b, u, r, f);
    TopFits(c, u, b, r, f);
    HandlerUses(c, u, b, WithTop(r, f));
  }

  lemma HardCallbackUses(c: Config, u: set<string>, b: nat, r: Resolver, f: Frame, rc: int)
    requires r.frames != [] && Top(r).wait.Process? && !Top(r).wait.callback.SoftCb? && FramesFit(c, u, b, r.frames)
    requires FrameOk(c, Top(r)) && f == Top(r).(log := f.log, wait := Nothing)
    ensures var s := HardCallback(c, WithTop(r, f), Top(r).wait.callback, rc);
            FramesFit(c, u, b, s.frames) && StackWork(b, u, s.frames) < StackWork(b, u, r.frames)
  {
    var callback := Top(r).wait.callback;
    TopCounts(b, u, r, f);
    if callback.SingleCb? {
      HandlerUsesTop(c, u, b, r, f.(dependencies := Next(f.dependencies)));
    } else if rc != 0 {
      HandlerUsesTop(c, u, b, r, f.(removeRpms := None, installRpms := None, phase := SingleRpm));
    } else if callback.BatchRemoveCb? {
      var f' := f.(removeRpms := None);
      TopCounts(b, u, r, f');
      TopFits(c, u, b, r, f');
      BatchRpmsUses(c, u, b, WithTop(r, f'));
    } else {
      HandlerUsesTop(c, u, b, r, f.(installRpms := None, dependencies := [], phase := SoftRpm));
    }
  }

  lemma ProcessUses(c: Config, root: Meta, u: set<string>, b: nat, r: Resolver, rc: int, cancelled: bool)
    requires Stack(c, root, r) && r.frames != [] && Top(r).wait.Process? && FramesFit(c, u, b, r.frames)
    ensures var s := OnProcess(c, r, rc, cancelled);
            FramesFit(c, u, b, s.frames) && StackWork(b, u, s.frames) < StackWork(b, u, r.frames)
  {
    var f := Top(r);
    var logged := f.(log := f.log + [Ran(f.wait.command, rc)], wait := Nothing);
    assert FrameOk(c, f);
    TopCounts(b, u, r, f);
    hide StackWork, FrameWork, Chain, Handler, HardCallback;
    if cancelled {
      ErrorUnwinds(c, WithTop(r, logged), Cancelled);
    } else if f.wait.callback.SoftCb? {
      HandlerUsesTop(c, u, b, r, logged.(softdependencies := Next(f.softdependencies)));
    } else if !c.ignoreFailedInstall && rc != 0 {
      ErrorUnwinds(c, WithTop(r, logged), NonZero(rc));
    } else {
      HardCallbackUses(c, u, b, r, logged, rc);
    }
  }
}
