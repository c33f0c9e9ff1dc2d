/** Every requested path is being worked on or closed: the invariant behind the coverage theorem. */
module DependencyCoverage {
  import opened Common
  import opened DependencyModel
  import opened DependencyInvariants
  import opened DependencyProofs

  /** Metadata answers agree with a fixed graph: the paths that have metadata, and what it says. */
  predicate Consistent(g: Graph, r: Resolver, e: Event) {
    e.MetadataDone? && e.error.None? && r.frames != [] && Top(r).wait.Metadata? ==>
      var p := Top(r).wait.path;
      e.meta == if p in g then Some(g[p]) else None
  }

  /** The frames below the top are in order and wait for it. */
  predicate TopPlaced(c: Config, root: Meta, r: Resolver)
    requires r.frames != []
  {
    && Chain(c, root, Below(r))
    && (Below(r) == [] <==> Top(r).path == None)
    && (Below(r) == [] ==> Top(r).origin.repodeps == root.repodeps)
    && (Below(r) != [] ==> Below(r)[|r.frames| - 2].wait == Child(Top(r).path.value))
  }

  lemma ChainPlacesTop(c: Config, root: Meta, r: Resolver)
    requires r.frames != [] && Chain(c, root, r.frames)
    ensures TopPlaced(c, root, r)
  {
    if |r.frames| > 1 {
      assert Linked(r.frames[|r.frames| - 2], r.frames[|r.frames| - 1]);
    }
  }

  lemma TopKeepsCovers(c: Config, g: Graph, root: Meta, r: Resolver, f: Frame)
    requires r.frames != [] && r.calls == [] && Covers(c, g, root, r)
    requires FrameCovers(c, g, r.requested, f) && f.path == Top(r).path && !Top(r).wait.Metadata?
    ensures Covers(c, g, root, WithTop(r, f))
  {
    var s := WithTop(r, f);
    assert forall i :: 0 <= i < |s.frames| ==> s.frames[i].path == r.frames[i].path;
    forall p | p in s.requested ensures Open(s, p) || Closed(c, g, s, p) {
      assert Open(r, p) || Closed(c, g, r, p);
      if i :| 0 <= i < |r.frames| && r.frames[i].path == Some(p) {
        assert s.frames[i].path == Some(p);
      }
    }
  }

  /** `f` has dealt with the same repodeps as `top`, has no more of them left outside its repo phase and
    * waits for none. */
  predicate SameRepos(top: Frame, f: Frame) {
    && f.path == top.path && f.origin == top.origin && f.repodeps == top.repodeps && f.processed == top.processed
    && (f.phase.Repo? || f.repodeps == []) && !f.wait.Child? && !f.wait.Metadata?
  }

  predicate Ready(c: Config, g: Graph, root: Meta, r: Resolver) {
    && r.frames != [] && r.calls == [] && Covers(c, g, root, r) && TopPlaced(c, root, r) && Top(r).wait.Nothing?
    && (Top(r).phase.Repo? || Top(r).repodeps == [])
  }

  lemma ReworkCovers(c: Config, g: Graph, root: Meta, r: Resolver, f: Frame)
    requires r.frames != [] && r.calls == [] && Covers(c, g, root, r) && TopPlaced(c, root, r)
    requires !Top(r).wait.Metadata? && SameRepos(Top(r), f)
    ensures Covers(c, g, root, WithTop(r, f)) && TopPlaced(c, root, WithTop(r, f))
  {
    assert FrameCovers(c, g, r.requested, Top(r));
    TopKeepsCovers(c, g, root, r, f);
  }

  lemma {:induction false} HandlerCovers(c: Config, g: Graph, root: Meta, r: Resolver)
    requires Ready(c, g, root, r)
    ensures Covers(c, g, root, Handler(c, r))
    decreases |r.frames|, Rank(Top(r).phase), 0
  {
    hide Covers, TopPlaced;
    var f := Top(r);
    match f.phase
    case Repo => FetchRepodepsCovers(c, g, root, r);
    case Rpm =>
      if f.dependencies != [] {
        var f' := f.(removeRpms := Some(Removals(f.dependencies)), installRpms := Some(Installs(f.dependencies)));
        ReworkCovers(c, g, root, r, f');
        BatchRpmsCovers(c, g, root, WithTop(r, f'));
      } else {
        LaterPhaseCovers(c, g, root, r, f.(phase := SoftRpm));
      }
    case SingleRpm =>
      if f.dependencies != [] {
        ReworkCovers(c, g, root, r, f.(wait := Process(One(f.dependencies[0]), SingleCb)));
      } else {
        LaterPhaseCovers(c, g, root, r, f.(phase := SoftRpm));
      }
    case SoftRpm =>
      if f.softdependencies != [] {
        ReworkCovers(c, g, root, r, f.(wait := Process(One(f.softdependencies[0]), SoftCb)));
      } else {
        LaterPhaseCovers(c, g, root, r, f.(phase := Done));
      }
    case Done => FinishCovers(c, g, root, r);
  }

  /** The frame on top enters a later phase. */
  lemma {:induction false} LaterPhaseCovers(c: Config, g: Graph, root: Meta, r: Resolver, f: Frame)
    requires Ready(c, g, root, r) && SameRepos(Top(r), f) && f.wait.Nothing?
    ensures Covers(c, g, root, Handler(c, WithTop(r, f)))
    decreases |r.frames|, Rank(f.phase), 1
  {
    hide Covers, TopPlaced;
    ReworkCovers(c, g, root, r, f);
    HandlerCovers(c, g, root, WithTop(r, f));
  }

  lemma {:induction false} FetchRepodepsCovers(c: Config, g: Graph, root: Meta, r: Resolver)
    requires Ready(c, g, root, r)
    ensures Covers(c, g, root, FetchRepodeps(c, r))
    decreases |r.frames|, 7
  {
    hide Covers, TopPlaced;
    var f := Top(r);
    if f.repodeps != [] {
      ReworkCovers(c, g, root, r, f.(wait := Fetch(c.pathOf(f.repodeps[0]))));
    } else {
      LaterPhaseCovers(c, g, root, r, f.(phase := Rpm));
    }
  }

  lemma {:induction false} BatchRpmsCovers(c: Config, g: Graph, root: Meta, r: Resolver)
    requires Ready(c, g, root, r) && !Top(r).phase.Repo?
    ensures Covers(c, g, root, BatchRpms(c, r))
    decreases |r.frames|, 5
  {
    hide Covers, TopPlaced;
    var f := Top(r);
    if f.removeRpms.Some? && f.removeRpms.value != [] {
      ReworkCovers(c, g, root, r, f.(wait := Process(Remove(f.removeRpms.value), BatchRemoveCb)));
    } else if f.installRpms.Some? && f.installRpms.value != [] {
      ReworkCovers(c, g, root, r, f.(removeRpms := None, wait := Process(Install(f.installRpms.value), BatchInstallCb)));
    } else {
      LaterPhaseCovers(c, g, root, r, f.(removeRpms := None, installRpms := None, phase := SoftRpm));
    }
  }

  /** The state once the frame on top has finished: its path is closed. */
  function Popped(r: Resolver): Resolver
    requires r.frames != []
  {
    Resolver(Below(r), r.calls, r.requested, r.finished + [Finished(Top(r).path, Top(r).origin, Top(r).log)])
  }

  lemma TopIsClosed(c: Config, g: Graph, r: Resolver)
    requires r.frames != [] && FrameCovers(c, g, r.requested, Top(r)) && Top(r).phase.Done? && Top(r).path.Some?
    ensures Closed(c, g, Popped(r), Top(r).path.value)
  {
    var f := Top(r);
    assert f.origin.repodeps[..|f.origin.repodeps|] == f.origin.repodeps;
    assert Finished(f.path, f.origin, f.log) in Popped(r).finished;
  }

  lemma StaysClosed(c: Config, g: Graph, r: Resolver, p: string)
    requires r.frames != [] && Closed(c, g, r, p)
    ensures Closed(c, g, Popped(r), p)
  {
    if p in g {
      var e :| e in r.finished && e.path == Some(p);
      assert e in Popped(r).finished;
    }
  }

  lemma StaysOpen(r: Resolver, p: string)
    requires r.frames != [] && Open(r, p) && Top(r).path != Some(p) && Top(r).wait.Nothing?
    ensures Open(Popped(r), p)
  {
    var i :| 0 <= i < |r.frames| && r.frames[i].path == Some(p);
    assert Popped(r).frames[i].path == Some(p);
  }

  lemma PopCovers(c: Config, g: Graph, root: Meta, r: Resolver)
    requires r.frames != [] && r.calls == [] && Covers(c, g, root, r) && Top(r).wait.Nothing? && Top(r).phase.Done?
    ensures Covers(c, g, root, Popped(r))
  {
    var f := Top(r);
    var s := Popped(r);
    forall p | p in s.requested ensures Open(s, p) || Closed(c, g, s, p) {
      assert Open(r, p) || Closed(c, g, r, p);
      if Closed(c, g, r, p) {
        StaysClosed(c, g, r, p);
      } else if f.path != Some(p) {
        StaysOpen(r, p);
      } else {
        TopIsClosed(c, g, r);
      }
    }
  }

  lemma LastPopCovers(c: Config, g: Graph, root: Meta, r: Resolver)
    requires r.frames != [] && Below(r) == [] && Covers(c, g, root, Popped(r)) && r.calls == []
    requires AllRequested(c, root.repodeps, r.requested)
    ensures Covers(c, g, root, Popped(r).(calls := [None]))
  {
    var s := Popped(r);
    forall p | p in s.requested ensures Closed(c, g, s.(calls := [None]), p) {
      assert Open(s, p) || Closed(c, g, s, p);
    }
  }

  lemma {:induction false} FinishCovers(c: Config, g: Graph, root: Meta, r: Resolver)
    requires Ready(c, g, root, r) && Top(r).phase.Done?
    ensures Covers(c, g, root, Finish(c, r, None))
    decreases |r.frames|, 0
  {
    PopCovers(c, g, root, r);
    if Below(r) != [] {
      hide Covers;
      AdvanceCovers(c, g, root, Popped(r));
    } else {
      RootHasRequested(c, g, root, r);
      hide Covers;
      LastPopCovers(c, g, root, r);
    }
  }

  lemma RootHasRequested(c: Config, g: Graph, root: Meta, r: Resolver)
    requires Ready(c, g, root, r) && Below(r) == [] && Top(r).repodeps == []
    ensures AllRequested(c, root.repodeps, r.requested)
  {
    var f := Top(r);
    assert FrameCovers(c, g, r.requested, f);
    assert f.origin.repodeps[..|f.origin.repodeps|] == f.origin.repodeps;
  }

  /** The repodep on which the frame on top was working is requested. */
  lemma ConsumeCovers(c: Config, g: Graph, requested: set<string>, f: Frame)
    requires FrameCovers(c, g, requested, f) && f.repodeps != [] && f.phase.Repo? && !f.wait.Nothing?
    requires IsSuffix(f.repodeps, f.origin.repodeps) && c.pathOf(f.repodeps[0]) in requested
    ensures FrameCovers(c, g, requested, f.(repodeps := Next(f.repodeps), wait := Nothing))
  {
    var n := Consumed(f.repodeps, f.origin.repodeps);
    assert f.origin.repodeps[..n + 1] == f.origin.repodeps[..n] + [f.repodeps[0]];
  }

  lemma {:induction false} AdvanceCovers(c: Config, g: Graph, root: Meta, r: Resolver)
    requires r.frames != [] && r.calls == [] && Covers(c, g, root, r) && Chain(c, root, r.frames)
    requires Top(r).wait.Child? || (Top(r).wait.Fetch? && Top(r).wait.path in r.requested)
    ensures Covers(c, g, root, Advance(c, r))
    decreases |r.frames|, 9
  {
    var f := Top(r);
    assert FrameCovers(c, g, r.requested, f) && FrameOk(c, f);
    hide Covers;
    ConsumeCovers(c, g, r.requested, f);
    var f' := f.(repodeps := Next(f.repodeps), wait := Nothing);
    TopKeepsCovers(c, g, root, r, f');
    ChainPlacesTop(c, root, r);
    hide Chain;
    FetchRepodepsCovers(c, g, root, WithTop(r, f'));
  }

  lemma StartCovers(c: Config, g: Graph, m: Meta)
    requires c.fetchMethod.Unpack?
    ensures Covers(c, g, m, Start(c, m))
  {
    var f := Frame(None, m, m.dependencies, m.softdependencies, m.repodeps, [], None, None, Repo, Nothing, []);
    HandlerCovers(c, g, m, Resolver([f], [], {}, []));
  }

  // ---- one answer -------------------------------------------------------------------------------

  lemma ErrorCovers(c: Config, g: Graph, root: Meta, r: Resolver, e: Error)
    requires r.frames != [] && r.calls == []
    ensures Covers(c, g, root, Finish(c, r, Some(e)))
  {
    ErrorUnwinds(c, r, e);
    assert (r.calls + [Some(e)])[0] == Some(e);
  }

  lemma FetchCovers(c: Config, g: Graph, root: Meta, r: Resolver, error: Option<Error>)
    requires r.frames != [] && Top(r).wait.Fetch? && Stack(c, root, r) && Covers(c, g, root, r)
    ensures Covers(c, g, root, OnFetch(c, r, error))
  {
    if error.Some? {
      ErrorCovers(c, g, root, r, error.value);
    } else if Top(r).wait.path !in Top(r).processed {
      RequestCovers(c, g, root, r);
    } else {
      assert FrameCovers(c, g, r.requested, Top(r));
      hide Covers;
      AdvanceCovers(c, g, root, r);
    }
  }

  /** A path met for the first time is open while its metadata is awaited. */
  lemma RequestCovers(c: Config, g: Graph, root: Meta, r: Resolver)
    requires r.frames != [] && Top(r).wait.Fetch? && r.calls == [] && Covers(c, g, root, r)
    requires Top(r).wait.path !in Top(r).processed
    ensures Covers(c, g, root, OnFetch(c, r, None))
  {
    var f := Top(r);
    var p := f.wait.path;
    var s := OnFetch(c, r, None);
    assert forall i :: 0 <= i < |s.frames| ==> s.frames[i].path == r.frames[i].path;
    forall i | 0 <= i < |s.frames| ensures FrameCovers(c, g, s.requested, s.frames[i]) {
      assert FrameCovers(c, g, r.requested, r.frames[i]);
    }
    forall q | q in s.requested ensures Open(s, q) || Closed(c, g, s, q) {
      if q != p {
        assert Open(r, q) || Closed(c, g, r, q);
        SamePathsStayOpen(r, s, q);
      }
    }
  }

  lemma SamePathsStayOpen(r: Resolver, s: Resolver, p: string)
    requires |s.frames| == |r.frames| && forall i :: 0 <= i < |s.frames| ==> s.frames[i].path == r.frames[i].path
    requires r.frames != [] ==> Top(r).wait != Metadata(p)
    ensures Open(r, p) ==> Open(s, p)
  {
    if i :| 0 <= i < |r.frames| && r.frames[i].path == Some(p) {
      assert s.frames[i].path == Some(p);
    }
  }

  lemma PushCovers(c: Config, g: Graph, root: Meta, r: Resolver, p: string)
    requires r.frames != [] && r.calls == [] && Covers(c, g, root, r) && Top(r).wait == Metadata(p) && p in g
    requires Top(r).phase.Repo?
    ensures Covers(c, g, root, r.(frames := Below(r) + [Top(r).(wait := Child(p)), Nested(Top(r), p, g[p])]))
  {
    var child := Nested(Top(r), p, g[p]);
    var t := r.(frames := Below(r) + [Top(r).(wait := Child(p)), child]);
    assert child.origin.repodeps[..0] == [];
    forall i | 0 <= i < |t.frames| ensures FrameCovers(c, g, t.requested, t.frames[i]) {
      if i < |r.frames| {
        assert FrameCovers(c, g, r.requested, r.frames[i]);
      } else {
        assert FrameCovers(c, g, r.requested, Top(r));
      }
    }
    assert t.frames[|t.frames| - 1].path == Some(p);
    forall q | q in t.requested ensures Open(t, q) || Closed(c, g, t, q) {
      assert Open(r, q) || Closed(c, g, r, q);
      if i :| 0 <= i < |r.frames| && r.frames[i].path == Some(q) {
        assert t.frames[i].path == Some(q);
      }
    }
  }

  /** A path that turns out to have metadata gets a frame of its own. */
  lemma NestedCovers(c: Config, g: Graph, root: Meta, r: Resolver)
    requires r.frames != [] && Top(r).wait.Metadata? && Stack(c, root, r) && Covers(c, g, root, r)
    requires Top(r).wait.path in g
    ensures Covers(c, g, root, OnMetadata(c, r, None, Some(g[Top(r).wait.path])))
  {
    var p := Top(r).wait.path;
    var t := r.(frames := Below(r) + [Top(r).(wait := Child(p)), Nested(Top(r), p, g[p])]);
    assert FrameOk(c, Top(r));
    PushCovers(c, g, root, r, p);
    WaitingKeepsChain(c, root, r, p);
    assert Below(t) == WithTop(r, Top(r).(wait := Child(p))).frames;
    hide Covers, Chain;
    FetchRepodepsCovers(c, g, root, t);
  }

  lemma NoMetadataCovers(c: Config, g: Graph, root: Meta, r: Resolver)
    requires r.frames != [] && Top(r).wait.Metadata? && Stack(c, root, r) && Covers(c, g, root, r)
    requires Top(r).wait.path !in g
    ensures Covers(c, g, root, OnMetadata(c, r, None, None))
  {
    var p := Top(r).wait.path;
    var s := WithTop(r, Top(r).(wait := Child(p)));
    DropCovers(c, g, root, r);
    WaitingKeepsChain(c, root, r, p);
    hide Covers, Chain;
    AdvanceCovers(c, g, root, s);
    assert Advance(c, s) == Advance(c, r);
  }

  /** A path without metadata is closed as soon as that is known. */
  lemma DropCovers(c: Config, g: Graph, root: Meta, r: Resolver)
    requires r.frames != [] && Top(r).wait.Metadata? && r.calls == [] && Covers(c, g, root, r)
    requires Top(r).wait.path !in g
    ensures Covers(c, g, root, WithTop(r, Top(r).(wait := Child(Top(r).wait.path))))
  {
    var p := Top(r).wait.path;
    var s := WithTop(r, Top(r).(wait := Child(p)));
    assert forall i :: 0 <= i < |s.frames| ==> s.frames[i].path == r.frames[i].path;
    forall q | q in s.requested ensures Open(s, q) || Closed(c, g, s, q) {
      assert Open(r, q) || Closed(c, g, r, q);
      if q != p {
        SamePathsStayOpen(r, s, q);
      }
    }
  }

  lemma MetadataCovers(c: Config, g: Graph, root: Meta, r: Resolver, error: Option<Error>, meta: Option<Meta>)
    requires r.frames != [] && Top(r).wait.Metadata? && Stack(c, root, r) && Covers(c, g, root, r)
    requires Consistent(g, r, MetadataDone(error, meta))
    ensures Covers(c, g, root, OnMetadata(c, r, error, meta))
  {
    if error.Some? {
      ErrorCovers(c, g, root, r, error.value);
    } else if Top(r).wait.path in g {
      NestedCovers(c, g, root, r);
    } else {
      NoMetadataCovers(c, g, root, r);
    }
  }

  lemma WaitingKeepsChain(c: Config, root: Meta, r: Resolver, p: string)
    requires r.frames != [] && Chain(c, root, r.frames) && Top(r).wait == Metadata(p)
    ensures Chain(c, root, WithTop(r, Top(r).(wait := Child(p))).frames)
  {
    var fs := WithTop(r, Top(r).(wait := Child(p))).frames;
    forall i | 0 < i < |fs| ensures Linked(fs[i - 1], fs[i]) {
      assert Linked(r.frames[i - 1], r.frames[i]);
    }
  }

  lemma ProcessCovers(c: Config, g: Graph, root: Meta, r: Resolver, rc: int, cancelled: bool)
    requires r.frames != [] && Top(r).wait.Process? && Stack(c, root, r) && Covers(c, g, root, r)
    ensures Covers(c, g, root, OnProcess(c, r, rc, cancelled))
  {
    var f := Top(r);
    var logged := f.(log := f.log + [Ran(f.wait.command, rc)], wait := Nothing);
    if cancelled {
      ErrorCovers(c, g, root, WithTop(r, logged), Cancelled);
    } else if f.wait.callback.SoftCb? {
      ContinueCovers(c, g, root, r, logged.(softdependencies := Next(f.softdependencies)));
    } else if !c.ignoreFailedInstall && rc != 0 {
      ErrorCovers(c, g, root, WithTop(r, logged), NonZero(rc));
    } else if f.wait.callback.SingleCb? {
      ContinueCovers(c, g, root, r, logged.(dependencies := Next(f.dependencies)));
    } else {
      ContinueCovers(c, g, root, r, AfterBatch(f, rc));
    }
  }

  /** The frame on top goes on with its package phase. */
  lemma ContinueCovers(c: Config, g: Graph, root: Meta, r: Resolver, f: Frame)
    requires r.frames != [] && Top(r).wait.Process? && Stack(c, root, r) && Covers(c, g, root, r)
    requires f.wait.Nothing? && !f.phase.Repo? && f.path == Top(r).path && f.origin == Top(r).origin
    requires f.repodeps == Top(r).repodeps && f.processed == Top(r).processed
    ensures Covers(c, g, root, Handler(c, WithTop(r, f))) && Covers(c, g, root, BatchRpms(c, WithTop(r, f)))
  {
    ChainPlacesTop(c, root, r);
    assert FrameOk(c, Top(r)) && FrameCovers(c, g, r.requested, Top(r));
    hide Covers, Chain, TopPlaced;
    ReworkCovers(c, g, root, r, f);
    HandlerCovers(c, g, root, WithTop(r, f));
    BatchRpmsCovers(c, g, root, WithTop(r, f));
  }

  lemma StepCovers(c: Config, g: Graph, root: Meta, r: Resolver, e: Event)
    requires Stack(c, root, r) && Covers(c, g, root, r) && Enabled(r, e) && Consistent(g, r, e)
    ensures Covers(c, g, root, Step(c, r, e))
  {
    match e
    case FetchDone(error) => FetchCovers(c, g, root, r, error);
    case MetadataDone(error, meta) => MetadataCovers(c, g, root, r, error, meta);
    case ProcessDone(rc, cancelled) => ProcessCovers(c, g, root, r, rc, cancelled);
  }
}
