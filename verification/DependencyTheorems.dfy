/** Properties of whole runs of the dependency resolver. */
module DependencyTheorems {
  import opened Common
  import opened DependencyModel
  import opened DependencyInvariants
  import opened DependencyProofs
  import opened DependencyCoverage
  import opened DependencyTermination

  /** A sequence of answers, each one to the operation the resolver was waiting for. */
  predicate IsRun(c: Config, r: Resolver, run: seq<Event>)
    decreases |run|
  {
    run == [] || (Enabled(r, run[0]) && IsRun(c, Step(c, r, run[0]), run[1..]))
  }

  function After(c: Config, r: Resolver, run: seq<Event>): Resolver
    requires IsRun(c, r, run)
    decreases |run|
  {
    if run == [] then r else After(c, Step(c, r, run[0]), run[1..])
  }

  /** The metadata answers of the run come from the repositories in `g`. */
  predicate Follows(c: Config, g: Graph, r: Resolver, run: seq<Event>)
    requires IsRun(c, r, run)
    decreases |run|
  {
    run == [] || (Consistent(g, r, run[0]) && Follows(c, g, Step(c, r, run[0]), run[1..]))
  }

  // ---- the finish callback ----------------------------------------------------------------------

  /** The errors of the answers in a run, in order. */
  function Errors(c: Config, r: Resolver, run: seq<Event>): seq<Error>
    requires IsRun(c, r, run)
    decreases |run|
  {
    if run == [] then []
    else (match Failing(c, r, run[0]) case Some(e) => [e] case None => []) + Errors(c, Step(c, r, run[0]), run[1..])
  }

  lemma FailingStep(c: Config, r: Resolver, e: Event)
    requires r.calls == [] && Enabled(r, e) && Failing(c, r, e).Some?
    ensures Step(c, r, e).frames == [] && Step(c, r, e).calls == [Failing(c, r, e)]
  {
    ErrorUnwinds(c, r, Failing(c, r, e).value);
    if e.ProcessDone? {
      var f := Top(r);
      ErrorUnwinds(c, WithTop(r, f.(log := f.log + [Ran(f.wait.command, e.rc)], wait := Nothing)),
                   Failing(c, r, e).value);
    }
  }

  /** The caller's callback is called exactly once, when the run is over: with the first error any
    * answer carried, and without one when no answer carried any.  A run that is not over is waiting
    * for an answer. */
  lemma {:induction false} FinishCalledOnceFrom(c: Config, root: Meta, r: Resolver, run: seq<Event>)
    requires Stack(c, root, r) && Settled(r) && Quiet(r) && IsRun(c, r, run)
    ensures var s := After(c, r, run); var errors := Errors(c, r, run);
            && Stack(c, root, s) && Settled(s)
            && (s.frames == [] ==> s.calls == [if errors == [] then None else Some(errors[0])])
            && (s.frames != [] ==> s.calls == [] && errors == [])
    decreases |run|
  {
    if run != [] {
      StepStack(c, root, r, run[0]);
      if Failing(c, r, run[0]).Some? {
        FailingStep(c, r, run[0]);
        assert run[1..] == [];
      } else {
        FinishCalledOnceFrom(c, root, Step(c, r, run[0]), run[1..]);
      }
    }
  }

  lemma FinishCalledOnce(c: Config, m: Meta, run: seq<Event>)
    requires IsRun(c, Start(c, m), run)
    ensures var s := After(c, Start(c, m), run); var errors := Errors(c, Start(c, m), run);
            && (s.frames == [] ==> s.calls == [if errors == [] then None else Some(errors[0])])
            && (s.frames != [] ==> s.calls == [] && errors == [] && !Top(s).wait.Nothing? && !Top(s).wait.Child?)
  {
    StartStack(c, m);
    FinishCalledOnceFrom(c, m, Start(c, m), run);
  }

  // ---- what finished frames have run ------------------------------------------------------------

  /** Every frame that ended, the root's included, ran its hard dependencies in two batches or one by
    * one and then the soft dependencies of the root, which every nested frame inherits. */
  lemma FinishedFramesRanEverything(c: Config, m: Meta, run: seq<Event>)
    requires IsRun(c, Start(c, m), run)
    ensures var s := After(c, Start(c, m), run);
            forall d :: d in s.finished ==>
              AllDone(c.ignoreFailedInstall, d.origin, d.log)
              && d.origin.softdependencies == m.softdependencies
  {
    StartStack(c, m);
    FinishCalledOnceFrom(c, m, Start(c, m), run);
    var s := After(c, Start(c, m), run);
    assert forall d :: d in s.finished ==> FinishedOk(c, m, d);
  }

  function Prefixed(names: seq<string>): seq<string> {
    seq(|names|, i requires 0 <= i < |names| => "-" + names[i])
  }

  /** The two batches share out the list: nothing is dropped, added or run twice. */
  lemma {:induction false} BatchesConserve(deps: seq<string>)
    ensures multiset(Prefixed(Removals(deps))) + multiset(Installs(deps)) == multiset(deps)
  {
    if deps != [] {
      var d := deps[0];
      assert deps == [d] + deps[1..];
      BatchesConserve(deps[1..]);
      if IsRemoval(d) {
        assert "-" + d[1..] == d;
        assert Prefixed(Removals(deps)) == [d] + Prefixed(Removals(deps[1..]));
      } else {
        assert Removals(deps) == Removals(deps[1..]) && Installs(deps) == [d] + Installs(deps[1..]);
      }
    }
  }

  /** Where failures count, a finished frame's hard commands are its two batches, both successful. */
  lemma StrictFramesRanTwoBatches(c: Config, m: Meta, run: seq<Event>, d: Finished)
    requires IsRun(c, Start(c, m), run) && d in After(c, Start(c, m), run).finished && !c.ignoreFailedInstall
    ensures |m.softdependencies| <= |d.log|
    ensures d.log[..|d.log| - |m.softdependencies|]
         == RemovePart(d.origin.dependencies) + InstallPart(d.origin.dependencies)
  {
    FinishedFramesRanEverything(c, m, run);
  }

  /** `command` deals with the list entry `name`: a leading minus sign asks for a removal. */
  predicate RunsAs(command: Command, name: string) {
    command == if name != "" && name[0] == '-' then Remove([name[1..]]) else Install([name])
  }

  lemma OneRunsAs(name: string)
    ensures RunsAs(One(name), name)
  {
  }

  /** The names of the two batches: an entry with a leading minus sign is removed under the name behind it and
    * one without is installed under its own. */
  lemma {:induction false} BatchNames(deps: seq<string>, n: string)
    ensures n in Removals(deps) <==> "-" + n in deps
    ensures n in Installs(deps) <==> n in deps && (n == "" || n[0] != '-')
    decreases |deps|
  {
    if deps != [] {
      var d := deps[0];
      assert deps == [d] + deps[1..];
      BatchNames(deps[1..], n);
      assert d != "" && d[0] == '-' ==> d == "-" + d[1..];
      assert ("-" + n)[1..] == n;
    }
  }

  lemma FirstOfBatches(d: string, deps: seq<string>)
    ensures Removals([d] + deps) == Removals([d]) + Removals(deps)
    ensures Installs([d] + deps) == Installs([d]) + Installs(deps)
  {
    assert ([d] + deps)[1..] == deps && [d][1..] == [];
  }

  /** The batches keep the order of the list. */
  lemma {:induction false} BatchesJoin(a: seq<string>, b: seq<string>)
    ensures Removals(a + b) == Removals(a) + Removals(b) && Installs(a + b) == Installs(a) + Installs(b)
    decreases |a|
  {
    hide Removals, Installs;
    if a == [] {
      assert a + b == b;
      EmptyBatches();
    } else {
      var rest := a[1..];
      assert a == [a[0]] + rest && a + b == [a[0]] + (rest + b);
      FirstOfBatches(a[0], rest);
      FirstOfBatches(a[0], rest + b);
      BatchesJoin(rest, b);
    }
  }

  lemma EmptyBatches()
    ensures Removals([]) == [] && Installs([]) == []
  {
  }

  function HardLog(d: Finished): seq<Ran>
    requires |d.origin.softdependencies| <= |d.log|
  {
    d.log[..|d.log| - |d.origin.softdependencies|]
  }

  predicate SomeFailed(log: seq<Ran>) {
    exists i :: 0 <= i < |log| && log[i].rc != 0
  }

  /** The commands that a finished frame ran before its soft dependencies and before its one-by-one phase. */
  function BatchLog(d: Finished): seq<Ran>
    requires |d.origin.softdependencies| <= |d.log|
    requires SomeFailed(HardLog(d)) ==> |d.origin.dependencies| <= |HardLog(d)|
  {
    var hard := HardLog(d);
    if SomeFailed(hard) then hard[..|hard| - |d.origin.dependencies|] else hard
  }

  /** The last commands are the soft dependencies, each run as it is written. */
  predicate SoftsAsWritten(d: Finished) {
    var softs := d.origin.softdependencies;
    && |softs| <= |d.log|
    && forall i :: 0 <= i < |softs| ==> RunsAs(d.log[|d.log| - |softs| + i].command, softs[i])
  }

  /** If a batch command has failed, the last commands before them are the dependencies, each run as it is
    * written. */
  predicate SinglesAsWritten(d: Finished)
    requires SoftsAsWritten(d)
  {
    var deps, hard := d.origin.dependencies, HardLog(d);
    SomeFailed(hard) ==>
      && |deps| <= |hard|
      && forall i :: 0 <= i < |deps| ==> RunsAs(hard[|hard| - |deps| + i].command, deps[i])
  }

  /** What a batch command names comes from the list: no name with a leading minus sign is installed, and what
    * is removed is an entry without its minus sign. */
  predicate NamesAsWritten(command: Command, deps: seq<string>) {
    forall n :: n in command.names ==>
      if command.Remove? then "-" + n in deps else n in deps && (n == "" || n[0] != '-')
  }

  /** There are at most two batch commands, only the last of them can have failed, and they name what they
    * should. */
  predicate BatchesAsWritten(d: Finished)
    requires SoftsAsWritten(d) && SinglesAsWritten(d)
  {
    var batch := BatchLog(d);
    && |batch| <= 2 && (SomeFailed(HardLog(d)) <==> SomeFailed(batch))
    && forall k :: 0 <= k < |batch| ==>
         (batch[k].rc != 0 ==> k == |batch| - 1) && NamesAsWritten(batch[k].command, d.origin.dependencies)
  }

  /** Over any run, every frame that ended without an error ran each of its entries as it is written: in its
    * batches, in its one-by-one phase and among its soft dependencies. */
  lemma EntriesAreRunAsWritten(c: Config, m: Meta, run: seq<Event>, d: Finished)
    requires IsRun(c, Start(c, m), run) && d in After(c, Start(c, m), run).finished
    ensures SoftsAsWritten(d) && SinglesAsWritten(d) && BatchesAsWritten(d)
  {
    hide IsRun, After, Start, AllDone, SoftsAsWritten, SinglesAsWritten, BatchesAsWritten;
    FinishedFramesRanEverything(c, m, run);
    SoftsLemma(c.ignoreFailedInstall, d);
    SinglesLemma(c.ignoreFailedInstall, d);
    BatchesLemma(c.ignoreFailedInstall, d);
  }

  lemma SoftsLemma(ignore: bool, d: Finished)
    requires AllDone(ignore, d.origin, d.log)
    ensures SoftsAsWritten(d)
  {
    hide HardDone, RunsAs, One;
    var softs := d.origin.softdependencies;
    forall i | 0 <= i < |softs| ensures RunsAs(d.log[|d.log| - |softs| + i].command, softs[i]) {
      assert d.log[|d.log| - |softs|..][i].command == Singles(softs)[i];
      OneRunsAs(softs[i]);
    }
  }

  lemma SinglesLemma(ignore: bool, d: Finished)
    requires AllDone(ignore, d.origin, d.log) && SoftsAsWritten(d)
    ensures SinglesAsWritten(d)
  {
    hide SoftsAsWritten, RunsAs, One, BatchFailed;
    var deps, hard := d.origin.dependencies, HardLog(d);
    if SomeFailed(hard) {
      var k := |hard| - |deps|;
      forall i | 0 <= i < |deps| ensures RunsAs(hard[k + i].command, deps[i]) {
        assert hard[k..][i].command == Singles(deps)[i];
        OneRunsAs(deps[i]);
      }
    }
  }

  lemma BatchesLemma(ignore: bool, d: Finished)
    requires AllDone(ignore, d.origin, d.log) && SoftsAsWritten(d) && SinglesAsWritten(d)
    ensures BatchesAsWritten(d)
  {
    hide SoftsAsWritten, SinglesAsWritten, HardDone, NamesAsWritten, Removals, Installs;
    BatchCommands(ignore, d);
    ListNames(d.origin.dependencies);
  }

  lemma ListNames(deps: seq<string>)
    ensures NamesAsWritten(Remove(Removals(deps)), deps) && NamesAsWritten(Install(Installs(deps)), deps)
  {
    forall n ensures n in Removals(deps) <==> "-" + n in deps
      ensures n in Installs(deps) <==> n in deps && (n == "" || n[0] != '-')
    {
      BatchNames(deps, n);
    }
  }

  /** The batch commands are the two that the list calls for, or the first of them. */
  lemma BatchCommands(ignore: bool, d: Finished)
    requires AllDone(ignore, d.origin, d.log) && SoftsAsWritten(d) && SinglesAsWritten(d)
    ensures |BatchLog(d)| <= 2 && (SomeFailed(HardLog(d)) <==> SomeFailed(BatchLog(d)))
    ensures forall k :: 0 <= k < |BatchLog(d)| ==>
              && (BatchLog(d)[k].rc != 0 ==> k == |BatchLog(d)| - 1)
              && (|| BatchLog(d)[k].command == Remove(Removals(d.origin.dependencies))
                  || BatchLog(d)[k].command == Install(Installs(d.origin.dependencies)))
  {
    hide Removals, Installs, Singles, RunsAs, Issued;
    var deps, hard := d.origin.dependencies, HardLog(d);
    if hard == RemovePart(deps) + InstallPart(deps) {
      assert !SomeFailed(hard);
    } else {
      var batch := hard[..|hard| - |deps|];
      assert BatchFailed(deps, batch);
      assert batch[|batch| - 1] == hard[|batch| - 1] && SomeFailed(hard) && SomeFailed(batch);
      assert |batch| == 1 || batch == RemovePart(deps) + [batch[|batch| - 1]];
    }
  }

  // ---- what a frame knows of the others ----------------------------------------------------------------

  /** The frame on top, once it is done with its first repodep and has another. */
  function OnNext(c: Config, f: Frame): Frame
    requires |f.repodeps| > 1
  {
    f.(wait := Fetch(c.pathOf(f.repodeps[1])), repodeps := f.repodeps[1..])
  }

  lemma AdvanceFetchesNext(c: Config, r: Resolver)
    requires r.frames != [] && |Top(r).repodeps| > 1
    ensures Advance(c, r) == WithTop(r, OnNext(c, Top(r)))
  {
    var f := Top(r);
    var g := f.(repodeps := f.repodeps[1..], wait := Nothing);
    assert Advance(c, r) == FetchRepodeps(c, WithTop(r, g));
    assert FetchRepodeps(c, WithTop(r, g)) == WithTop(WithTop(r, g), OnNext(c, f));
  }

  /** A path that has been fetched is asked about exactly if the frame has not processed it, whatever other frames
    * have asked for; the frames below stay as they are. */
  lemma FetchedPath(c: Config, r: Resolver)
    requires r.frames != [] && Top(r).wait.Fetch?
    ensures var f := Top(r); var p := f.wait.path; var s := OnFetch(c, r, None);
            && (p !in f.processed ==>
                  s == WithTop(r, f.(wait := Metadata(p), processed := [p] + f.processed)).(requested := r.requested + {p}))
            && (p in f.processed && |f.repodeps| > 1 ==> s == WithTop(r, OnNext(c, f)))
  {
    hide Advance, OnNext;
    if |Top(r).repodeps| > 1 {
      AdvanceFetchesNext(c, r);
    }
  }

  /** A repository that is done with leaves the frame that opened it with the list of processed paths it had: what
    * was processed below is not handed back. */
  lemma NothingHandedBack(c: Config, r: Resolver)
    requires |r.frames| > 1 && |r.frames[|r.frames| - 2].repodeps| > 1
    ensures var s := Finish(c, r, None); var parent := r.frames[|r.frames| - 2];
            && s.frames == r.frames[..|r.frames| - 2] + [OnNext(c, parent)] && OnNext(c, parent).processed == parent.processed
            && s.requested == r.requested && s.calls == r.calls
  {
    hide Advance;
    var f := Top(r);
    var s := Resolver(Below(r), r.calls, r.requested, r.finished + [Finished(f.path, f.origin, f.log)]);
    assert Top(s) == r.frames[|r.frames| - 2] && Below(s) == r.frames[..|r.frames| - 2];
    AdvanceFetchesNext(c, s);
  }

  // ---- tasks from packages --------------------------------------------------------------------------

  /** Nothing has been fetched or asked for, and no frame but the root's has been opened. */
  predicate NothingFetched(r: Resolver) {
    && r.requested == {} && |r.frames| <= 1
    && (r.frames != [] ==> !Top(r).phase.Repo? && (Top(r).wait.Nothing? || Top(r).wait.Process?))
  }

  lemma TopFetchesNothing(r: Resolver, f: Frame)
    requires r.frames != [] && NothingFetched(r) && !f.phase.Repo? && (f.wait.Nothing? || f.wait.Process?)
    ensures NothingFetched(WithTop(r, f))
  {
  }

  lemma FinishFetchesNothing(c: Config, r: Resolver, error: Option<Error>)
    requires r.frames != [] && NothingFetched(r)
    ensures NothingFetched(Finish(c, r, error))
  {
    hide Advance;
    assert Below(r) == [];
  }

  lemma TopIsNoRepo(r: Resolver)
    requires r.frames != [] && NothingFetched(r)
    ensures !Top(r).phase.Repo? && (Top(r).wait.Nothing? || Top(r).wait.Process?)
  {
  }

  lemma {:induction false} HandlerFetchesNothing(c: Config, r: Resolver)
    requires r.frames != [] && NothingFetched(r)
    ensures NothingFetched(Handler(c, r))
    decreases |r.frames|, Rank(Top(r).phase), 0
  {
    hide NothingFetched, BatchRpms, Finish, FetchRepodeps;
    var f := Top(r);
    TopIsNoRepo(r);
    match f.phase
    case Rpm =>
      if f.dependencies != [] {
        var g := f.(removeRpms := Some(Removals(f.dependencies)), installRpms := Some(Installs(f.dependencies)));
        TopFetchesNothing(r, g);
        BatchFetchesNothing(c, WithTop(r, g));
      } else {
        PhaseFetchesNothing(c, r, f.(phase := SoftRpm));
      }
    case SingleRpm =>
      if f.dependencies != [] {
        TopFetchesNothing(r, f.(wait := Process(One(f.dependencies[0]), SingleCb)));
      } else {
        PhaseFetchesNothing(c, r, f.(phase := SoftRpm));
      }
    case SoftRpm =>
      if f.softdependencies != [] {
        TopFetchesNothing(r, f.(wait := Process(One(f.softdependencies[0]), SoftCb)));
      } else {
        PhaseFetchesNothing(c, r, f.(phase := Done));
      }
    case Done => FinishFetchesNothing(c, r, None);
    case Repo =>
  }

  lemma {:induction false} PhaseFetchesNothing(c: Config, r: Resolver, f: Frame)
    requires r.frames != [] && NothingFetched(r) && !f.phase.Repo? && (f.wait.Nothing? || f.wait.Process?)
    ensures NothingFetched(Handler(c, WithTop(r, f)))
    decreases |r.frames|, Rank(f.phase), 1
  {
    hide NothingFetched, Handler;
    TopFetchesNothing(r, f);
    HandlerFetchesNothing(c, WithTop(r, f));
  }

  lemma {:induction false} BatchFetchesNothing(c: Config, r: Resolver)
    requires r.frames != [] && NothingFetched(r)
    ensures NothingFetched(BatchRpms(c, r))
    decreases |r.frames|, 5
  {
    hide NothingFetched, Handler;
    var f := Top(r);
    TopIsNoRepo(r);
    if f.removeRpms.Some? && f.removeRpms.value != [] {
      TopFetchesNothing(r, f.(wait := Process(Remove(f.removeRpms.value), BatchRemoveCb)));
    } else if f.installRpms.Some? && f.installRpms.value != [] {
      TopFetchesNothing(r, f.(removeRpms := None, wait := Process(Install(f.installRpms.value), BatchInstallCb)));
    } else {
      PhaseFetchesNothing(c, r, f.(removeRpms := None, installRpms := None, phase := SoftRpm));
    }
  }

  lemma ProcessFetchesNothing(c: Config, r: Resolver, rc: int, cancelled: bool)
    requires r.frames != [] && NothingFetched(r) && Top(r).wait.Process?
    ensures NothingFetched(OnProcess(c, r, rc, cancelled))
  {
    hide Handler, BatchRpms, Finish, NothingFetched;
    TopIsNoRepo(r);
    var callback := Top(r).wait.callback;
    var f := Top(r).(log := Top(r).log + [Ran(Top(r).wait.command, rc)], wait := Nothing);
    TopFetchesNothing(r, f);
    if cancelled {
      FinishFetchesNothing(c, WithTop(r, f), Some(Cancelled));
    } else if callback.SoftCb? {
      PhaseFetchesNothing(c, r, f.(softdependencies := Next(f.softdependencies)));
    } else if !c.ignoreFailedInstall && rc != 0 {
      FinishFetchesNothing(c, WithTop(r, f), Some(NonZero(rc)));
    } else if callback.SingleCb? {
      PhaseFetchesNothing(c, r, f.(dependencies := Next(f.dependencies)));
    } else if rc != 0 {
      PhaseFetchesNothing(c, r, f.(removeRpms := None, installRpms := None, phase := SingleRpm));
    } else if callback.BatchRemoveCb? {
      TopFetchesNothing(r, f.(removeRpms := None));
      BatchFetchesNothing(c, WithTop(r, f.(removeRpms := None)));
    } else {
      PhaseFetchesNothing(c, r, f.(installRpms := None, dependencies := [], phase := SoftRpm));
    }
  }

  lemma {:induction false} RunFetchesNothing(c: Config, r: Resolver, run: seq<Event>)
    requires NothingFetched(r) && IsRun(c, r, run)
    ensures NothingFetched(After(c, r, run))
    decreases |run|
  {
    hide OnProcess, NothingFetched;
    if run != [] {
      assert run[0].ProcessDone? && Top(r).wait.Process? by {
        OnlyProcesses(r, run[0]);
      }
      ProcessFetchesNothing(c, r, run[0].rc, run[0].cancelled);
      RunFetchesNothing(c, Step(c, r, run[0]), run[1..]);
    }
  }

  lemma OnlyProcesses(r: Resolver, e: Event)
    requires NothingFetched(r) && Enabled(r, e)
    ensures e.ProcessDone? && Top(r).wait.Process?
  {
  }

  /** A task that is a package installs its own dependencies only: whatever its repodeps, nothing is fetched, no
    * metadata is asked for and no frame is opened. */
  lemma PackagesFetchNothing(c: Config, m: Meta, run: seq<Event>)
    requires c.fetchMethod.InstallPackage? && IsRun(c, Start(c, m), run)
    ensures var s := After(c, Start(c, m), run);
            && s.requested == {} && |s.frames| <= 1
            && (s.frames != [] ==> !Top(s).wait.Fetch? && !Top(s).wait.Metadata? && !Top(s).wait.Child?)
  {
    hide Handler, IsRun, After;
    var f := Frame(None, m, m.dependencies, m.softdependencies, m.repodeps, [], None, None, Rpm, Nothing, []);
    HandlerFetchesNothing(c, Resolver([f], [], {}, []));
    RunFetchesNothing(c, Start(c, m), run);
  }

  // ---- which repositories a successful run has visited --------------------------------------------

  /** A path a dependency chain leads to: it starts at a repodep of the root and each next path is a
    * repodep of the one before. */
  predicate IsPath(c: Config, g: Graph, m: Meta, chain: seq<string>) {
    && chain != []
    && (exists d :: d in m.repodeps && c.pathOf(d) == chain[0])
    && forall i :: 0 <= i < |chain| - 1 ==>
         chain[i] in g && exists d :: d in g[chain[i]].repodeps && c.pathOf(d) == chain[i + 1]
  }

  predicate Visited(g: Graph, r: Resolver, p: string) {
    p in r.requested && (p in g ==> HasFinished(r.finished, p))
  }

  lemma {:induction false} RunCovers(c: Config, g: Graph, root: Meta, r: Resolver, run: seq<Event>)
    requires Stack(c, root, r) && Covers(c, g, root, r) && IsRun(c, r, run) && Follows(c, g, r, run)
    ensures Stack(c, root, After(c, r, run)) && Covers(c, g, root, After(c, r, run))
    decreases |run|
  {
    if run != [] {
      StepStack(c, root, r, run[0]);
      StepCovers(c, g, root, r, run[0]);
      RunCovers(c, g, root, Step(c, r, run[0]), run[1..]);
    }
  }

  lemma {:induction false} ChainsAreVisited(c: Config, g: Graph, m: Meta, r: Resolver, chain: seq<string>)
    requires AllRequested(c, m.repodeps, r.requested)
    requires forall p :: p in r.requested ==> Closed(c, g, r, p)
    requires IsPath(c, g, m, chain)
    ensures Visited(g, r, chain[|chain| - 1])
    decreases |chain|
  {
    var n := |chain| - 1;
    if n > 0 {
      var before := chain[..n];
      assert forall i :: 0 <= i < |before| ==> before[i] == chain[i];
      ChainsAreVisited(c, g, m, r, before);
      assert Closed(c, g, r, chain[n - 1]);
      assert chain[n - 1] in g && exists d :: d in g[chain[n - 1]].repodeps && c.pathOf(d) == chain[n];
    }
    assert Closed(c, g, r, chain[n]);
  }

  /** Once the task's own packages are being dealt with, and at the end of a successful run, every path
    * that a chain of repodeps leads to has had its metadata requested, and the package phase of each
    * one that has metadata is over.  Cycles and shared repositories make no difference, although a
    * frame never learns which paths the frames it opened have processed. */
  lemma ReachableReposAreDone(c: Config, g: Graph, m: Meta, run: seq<Event>, chain: seq<string>)
    requires c.fetchMethod.Unpack? && IsRun(c, Start(c, m), run) && Follows(c, g, Start(c, m), run)
    requires IsPath(c, g, m, chain)
    requires var s := After(c, Start(c, m), run);
             s.calls == [None] || (|s.frames| == 1 && s.frames[0].phase != Repo)
    ensures Visited(g, After(c, Start(c, m), run), chain[|chain| - 1])
  {
    StartStack(c, m);
    StartCovers(c, g, m);
    RunCovers(c, g, m, Start(c, m), run);
    var s := After(c, Start(c, m), run);
    if s.calls != [None] {
      var f := s.frames[0];
      assert FrameCovers(c, g, s.requested, f) && FrameOk(c, f);
      assert f.origin.repodeps[..|m.repodeps|] == m.repodeps;
    }
    assert forall p :: !Open(s, p);
    ChainsAreVisited(c, g, m, s, chain);
  }

  // ---- every run ends -----------------------------------------------------------------------------

  /** Every answer either ends the run or uses up some of the work left. */
  lemma AnswerUses(c: Config, g: Graph, root: Meta, u: set<string>, b: nat, r: Resolver, e: Event)
    requires GraphFits(c, u, b, g, root) && Stack(c, root, r) && FramesFit(c, u, b, r.frames)
    requires Enabled(r, e) && Consistent(g, r, e)
    ensures var s := Step(c, r, e);
            FramesFit(c, u, b, s.frames) && StackWork(b, u, s.frames) < StackWork(b, u, r.frames)
  {
    match e
    case FetchDone(error) => FetchUses(c, root, u, b, r, error);
    case MetadataDone(error, meta) => MetadataUses(c, root, u, b, r, error, if error.Some? then None else meta);
    case ProcessDone(rc, cancelled) => ProcessUses(c, root, u, b, r, rc, cancelled);
  }

  lemma {:induction false} RunsAreShort(c: Config, g: Graph, root: Meta, u: set<string>, b: nat,
                                        r: Resolver, run: seq<Event>)
    requires GraphFits(c, u, b, g, root) && Stack(c, root, r) && FramesFit(c, u, b, r.frames)
    requires IsRun(c, r, run) && Follows(c, g, r, run)
    ensures |run| <= StackWork(b, u, r.frames)
    decreases |run|
  {
    hide GraphFits, Stack, FramesFit, StackWork, Step;
    if run != [] {
      AnswerUses(c, g, root, u, b, r, run[0]);
      StepStack(c, root, r, run[0]);
      RunsAreShort(c, g, root, u, b, Step(c, r, run[0]), run[1..]);
    }
  }

  lemma {:induction false} ListsAreBounded(g: Graph) returns (b: nat)
    ensures forall p :: p in g ==> MetaBounded(g[p], b)
    decreases |g|
  {
    if g == map[] {
      b := 0;
    } else {
      var p :| p in g;
      var rest := g - {p};
      assert |rest| < |g| by {
        assert rest.Keys == g.Keys - {p};
      }
      var b' := ListsAreBounded(rest);
      b := b' + |g[p].dependencies| + |g[p].softdependencies| + |g[p].repodeps|;
      assert forall q :: q in g && q != p ==> q in rest && rest[q] == g[q];
    }
  }

  /** For any finite graph of repositories, cycles included, there is a bound on the number of answers
    * the resolver can take: it terminates, whatever the answers are. */
  lemma ResolverTerminates(c: Config, g: Graph, m: Meta) returns (bound: nat)
    ensures forall run :: IsRun(c, Start(c, m), run) && Follows(c, g, Start(c, m), run) ==> |run| <= bound
  {
    var u := (set d | d in m.repodeps :: c.pathOf(d)) + (set p, d | p in g && d in g[p].repodeps :: c.pathOf(d));
    var b := ListsAreBounded(g);
    b := b + |m.dependencies| + |m.softdependencies| + |m.repodeps|;
    assert GraphFits(c, u, b, g, m);
    var phase := if c.fetchMethod.Unpack? then Repo else Rpm;
    var f := Frame(None, m, m.dependencies, m.softdependencies, m.repodeps, [], None, None, phase, Nothing, []);
    HandlerUses(c, u, b, Resolver([f], [], {}, []));
    StartStack(c, m);
    bound := StackWork(b, u, Start(c, m).frames);
    forall run | IsRun(c, Start(c, m), run) && Follows(c, g, Start(c, m), run) ensures |run| <= bound {
      RunsAreShort(c, g, m, u, b, Start(c, m), run);
    }
  }
}
