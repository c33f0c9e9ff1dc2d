/** What every reachable state of the dependency resolver satisfies. */
module DependencyInvariants {
  import opened Common
  import opened DependencyModel

  type Graph = map<string, Meta>

  // ---- what a frame has run so far ------------------------------------------------------------

  function Singles(names: seq<string>): seq<Command> {
    seq(|names|, i requires 0 <= i < |names| => One(names[i]))
  }

  /** The commands of `log` are `commands`, whatever their exit codes. */
  predicate Issued(log: seq<Ran>, commands: seq<Command>) {
    |log| == |commands| && forall i :: 0 <= i < |log| ==> log[i].command == commands[i]
  }

  function RemovePart(deps: seq<string>): seq<Ran> {
    if Removals(deps) == [] then [] else [Ran(Remove(Removals(deps)), 0)]
  }

  function InstallPart(deps: seq<string>): seq<Ran> {
    if Installs(deps) == [] then [] else [Ran(Install(Installs(deps)), 0)]
  }

  /** A batch phase that stopped at its first non-zero exit code. */
  predicate BatchFailed(deps: seq<string>, log: seq<Ran>) {
    log != [] && log[|log| - 1].rc != 0 &&
    (|| (Removals(deps) != [] && |log| == 1 && log[0].command == Remove(Removals(deps)))
     || (Installs(deps) != [] && log[..|log| - 1] == RemovePart(deps) &&
         log[|log| - 1].command == Install(Installs(deps))))
  }

  /** The hard dependencies are dealt with: in two batches that both succeeded, or, where failures are
    * ignored, in a failed batch followed by the whole list one entry at a time. */
  predicate HardDone(ignore: bool, deps: seq<string>, log: seq<Ran>) {
    || log == RemovePart(deps) + InstallPart(deps)
    || (&& ignore
        && |deps| <= |log|
        && BatchFailed(deps, log[..|log| - |deps|])
        && Issued(log[|log| - |deps|..], Singles(deps)))
  }

  /** Everything is dealt with: the soft dependencies follow, one at a time and in order. */
  predicate AllDone(ignore: bool, m: Meta, log: seq<Ran>) {
    && |m.softdependencies| <= |log|
    && HardDone(ignore, m.dependencies, log[..|log| - |m.softdependencies|])
    && Issued(log[|log| - |m.softdependencies|..], Singles(m.softdependencies))
  }

  predicate IsSuffix<T(==)>(s: seq<T>, whole: seq<T>) {
    |s| <= |whole| && s == whole[|whole| - |s|..]
  }

  function Consumed<T>(s: seq<T>, whole: seq<T>): nat {
    if |s| <= |whole| then |whole| - |s| else 0
  }

  predicate InRepoPhase(c: Config, f: Frame) {
    && f.log == [] && f.removeRpms == None && f.installRpms == None
    && f.dependencies == f.origin.dependencies && f.softdependencies == f.origin.softdependencies
    && match f.wait
       case Nothing => true
       case Process(_, _) => false
       case w => f.repodeps != [] && w.path == c.pathOf(f.repodeps[0])
  }

  predicate InBatchPhase(f: Frame) {
    var deps := f.origin.dependencies;
    && f.dependencies == deps && f.softdependencies == f.origin.softdependencies
    && (f.removeRpms.Some? ==> f.removeRpms.value == Removals(deps) && f.installRpms.Some? && f.log == [])
    && (f.installRpms.Some? ==> f.installRpms.value == Installs(deps))
    && (f.removeRpms.None? && f.installRpms.Some? ==> f.log == RemovePart(deps))
    && (f.removeRpms.None? && f.installRpms.None? ==> f.log == [])
    && match f.wait
       case Nothing => true
       case Process(command, BatchRemoveCb) =>
         f.removeRpms.Some? && Removals(deps) != [] && command == Remove(Removals(deps))
       case Process(command, BatchInstallCb) =>
         f.removeRpms.None? && f.installRpms.Some? && Installs(deps) != [] && command == Install(Installs(deps))
       case _ => false
  }

  predicate InSinglePhase(c: Config, f: Frame) {
    var deps := f.origin.dependencies;
    var n := Consumed(f.dependencies, deps);
    && c.ignoreFailedInstall && f.softdependencies == f.origin.softdependencies
    && IsSuffix(f.dependencies, deps) && n <= |f.log|
    && BatchFailed(deps, f.log[..|f.log| - n])
    && Issued(f.log[|f.log| - n..], Singles(deps)[..n])
    && (f.wait == Nothing || (f.dependencies != [] && f.wait == Process(One(f.dependencies[0]), SingleCb)))
  }

  predicate InSoftPhase(c: Config, f: Frame) {
    var softs := f.origin.softdependencies;
    var n := Consumed(f.softdependencies, softs);
    && IsSuffix(f.softdependencies, softs) && n <= |f.log|
    && HardDone(c.ignoreFailedInstall, f.origin.dependencies, f.log[..|f.log| - n])
    && Issued(f.log[|f.log| - n..], Singles(softs)[..n])
    && (f.wait == Nothing || (f.softdependencies != [] && f.wait == Process(One(f.softdependencies[0]), SoftCb)))
  }

  predicate FrameOk(c: Config, f: Frame) {
    && IsSuffix(f.repodeps, f.origin.repodeps)
    && match f.phase
       case Repo => InRepoPhase(c, f)
       case Rpm => InBatchPhase(f)
       case SingleRpm => InSinglePhase(c, f)
       case SoftRpm => InSoftPhase(c, f)
       case Done => f.wait == Nothing && AllDone(c.ignoreFailedInstall, f.origin, f.log)
  }

  // ---- the stack ------------------------------------------------------------------------------

  predicate Linked(parent: Frame, child: Frame) {
    child.path.Some? && parent.wait == Child(child.path.value)
  }

  predicate FinishedOk(c: Config, root: Meta, d: Finished) {
    && d.origin.softdependencies == root.softdependencies
    && AllDone(c.ignoreFailedInstall, d.origin, d.log)
  }

  /** The frames, bottom first: each one is where its phase and its log say, and each waits for the next. */
  predicate Chain(c: Config, root: Meta, frames: seq<Frame>) {
    && (forall i :: 0 <= i < |frames| ==>
          FrameOk(c, frames[i]) && frames[i].origin.softdependencies == root.softdependencies)
    && (forall i :: 0 < i < |frames| ==> Linked(frames[i - 1], frames[i]))
    && (frames != [] ==> frames[0].path == None && frames[0].origin == root)
  }

  predicate Stack(c: Config, root: Meta, r: Resolver) {
    && |r.calls| == (if r.frames == [] then 1 else 0)
    && Chain(c, root, r.frames)
    && (r.frames != [] ==> !Top(r).wait.Child?)
    && (forall d :: d in r.finished ==> FinishedOk(c, root, d))
  }

  predicate Settled(r: Resolver) {
    r.frames == [] || !Top(r).wait.Nothing?
  }

  /** The root's callback has not been called with an error. */
  predicate Quiet(r: Resolver) {
    r.calls == [] || r.calls == [None]
  }

  // ---- which repositories have been looked at ---------------------------------------------------

  predicate AllRequested(c: Config, deps: seq<string>, requested: set<string>) {
    forall d :: d in deps ==> c.pathOf(d) in requested
  }

  predicate HasFinished(finished: seq<Finished>, path: string) {
    exists d :: d in finished && d.path == Some(path)
  }

  /** A path whose own repodeps were all requested and whose package phase is over. */
  predicate Closed(c: Config, g: Graph, r: Resolver, p: string) {
    (p in g ==> AllRequested(c, g[p].repodeps, r.requested) && HasFinished(r.finished, p))
  }

  predicate Open(r: Resolver, p: string) {
    || (exists i :: 0 <= i < |r.frames| && r.frames[i].path == Some(p))
    || (r.frames != [] && Top(r).wait == Metadata(p))
  }

  predicate FrameCovers(c: Config, g: Graph, requested: set<string>, f: Frame) {
    && (f.phase != Repo ==> f.repodeps == [])
    && AllRequested(c, f.origin.repodeps[..Consumed(f.repodeps, f.origin.repodeps)], requested)
    && (f.wait.Child? || f.wait.Metadata? ==> f.wait.path in requested && f.wait.path in f.processed)
    && (f.path.Some? ==>
          && f.path.value in requested && f.path.value in g
          && f.origin.repodeps == g[f.path.value].repodeps
          && f.origin.dependencies == g[f.path.value].dependencies)
    && (forall p :: p in f.processed ==> p in requested)
  }

  /** While no error has ended the run, every requested path is still being worked on or is closed. */
  predicate Covers(c: Config, g: Graph, root: Meta, r: Resolver) {
    && (forall i :: 0 <= i < |r.frames| ==> FrameCovers(c, g, r.requested, r.frames[i]))
    && (Quiet(r) ==>
          forall p :: p in r.requested ==> Open(r, p) || Closed(c, g, r, p))
    && (r.calls == [None] ==> AllRequested(c, root.repodeps, r.requested))
  }

  // ---- a measure: how many more answers a run can take ------------------------------------------

  /** Every list in the graph and in the root is at most `b` long. */
  predicate MetaBounded(m: Meta, b: nat) {
    |m.dependencies| <= b && |m.softdependencies| <= b && |m.repodeps| <= b
  }

  /** All lists are at most `b` long and every path a repodep can stand for is in `u`. */
  predicate Fits(c: Config, u: set<string>, b: nat, m: Meta) {
    MetaBounded(m, b) && forall d :: d in m.repodeps ==> c.pathOf(d) in u
  }

  predicate GraphFits(c: Config, u: set<string>, b: nat, g: Graph, root: Meta) {
    Fits(c, u, b, root) && forall p :: p in g ==> Fits(c, u, b, g[p])
  }

  predicate FrameFits(c: Config, u: set<string>, b: nat, f: Frame) {
    && |f.dependencies| <= b && |f.softdependencies| <= b && |f.repodeps| <= b
    && forall d :: d in f.repodeps ==> c.pathOf(d) in u
  }

  predicate FramesFit(c: Config, u: set<string>, b: nat, frames: seq<Frame>) {
    && (forall i :: 0 <= i < |frames| ==> FrameFits(c, u, b, frames[i]))
    && (forall i :: 0 <= i < |frames| - 1 ==> frames[i].phase.Repo?)
  }

  /** The most answers a frame can take that has `n` unprocessed paths and `k` repodeps left. */
  function Work(b: nat, n: nat, k: nat): nat
    decreases n, k
  {
    if k == 0 then 2 + 2 * b
    else 2 + (if n == 0 then 0 else Work(b, n - 1, b)) + Work(b, n, k - 1)
  }

  function Unprocessed(u: set<string>, processed: seq<string>): nat {
    |u - (set p | p in processed)|
  }

  function FrameWork(b: nat, u: set<string>, f: Frame): nat {
    var n := Unprocessed(u, f.processed);
    match f.phase
    case Repo =>
      (match f.wait
       case Metadata(_) => 1 + Work(b, n, b) + Work(b, n, |Next(f.repodeps)|)
       case Child(_) => Work(b, n, |Next(f.repodeps)|)
       case _ => Work(b, n, |f.repodeps|))
    case Rpm =>
      (if f.removeRpms.None? && f.installRpms.Some? then 1 else 2) + |f.dependencies| + |f.softdependencies|
    case SingleRpm => |f.dependencies| + |f.softdependencies|
    case SoftRpm => |f.softdependencies|
    case Done => 0
  }

  function StackWork(b: nat, u: set<string>, frames: seq<Frame>): nat {
    if frames == [] then 0
    else StackWork(b, u, frames[..|frames| - 1]) + FrameWork(b, u, frames[|frames| - 1])
  }
}
