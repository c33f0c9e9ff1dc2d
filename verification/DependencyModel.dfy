/** The dependency resolver of src/dependency.c as a machine over a stack of frames.
  *
  * One Frame is one DependencyData.  The frame on top is the one whose callback runs next; a frame
  * below it waits, through ldep_finish_cb, for the frame above it to finish.  Every asynchronous
  * operation is answered by one event, and everything the C code does between two answers is one step.
  */
module DependencyModel {
  import opened Common

  datatype Error = Cancelled | NonZero(rc: int) | Failure(text: string)

  /** TaskFetchMethod has these two members, so the default branch of restraint_install_dependencies is
    * not reached. */
  datatype FetchMethod = Unpack | InstallPackage

  datatype Meta = Meta(dependencies: seq<string>, softdependencies: seq<string>, repodeps: seq<string>)

  /** An invocation of rstrnt-package with its argument list. */
  datatype Command = Remove(names: seq<string>) | Install(names: seq<string>)

  /** A command that has ended, with its exit code. */
  datatype Ran = Ran(command: Command, rc: int)

  datatype Phase = Repo | Rpm | SingleRpm | SoftRpm | Done

  datatype Callback = BatchRemoveCb | BatchInstallCb | SingleCb | SoftCb

  /** The outstanding operation of a frame. */
  datatype Wait =
    | Nothing
    | Fetch(path: string)
    | Metadata(path: string)
    | Child(path: string)
    | Process(command: Command, callback: Callback)

  /** One DependencyData.  `path` is the repository the frame was opened for and None for the root;
    * `origin` holds the lists the frame started with and `log` the commands it has completed. */
  datatype Frame = Frame(
    path: Option<string>,
    origin: Meta,
    dependencies: seq<string>,
    softdependencies: seq<string>,
    repodeps: seq<string>,
    processed: seq<string>,
    removeRpms: Option<seq<string>>,
    installRpms: Option<seq<string>>,
    phase: Phase,
    wait: Wait,
    log: seq<Ran>)

  /** What a frame that ended without an error leaves behind. */
  datatype Finished = Finished(path: Option<string>, origin: Meta, log: seq<Ran>)

  /** `calls` are the arguments the root's finish_cb was called with; `requested` the paths whose
    * metadata was asked for; `finished` the frames that ended without an error, oldest first. */
  datatype Resolver = Resolver(
    frames: seq<Frame>,
    calls: seq<Option<Error>>,
    requested: set<string>,
    finished: seq<Finished>)

  /** What stays fixed during a run.  `pathOf` is the path g_build_filename makes for a repodep name:
    * two names may share one path. */
  datatype Config = Config(pathOf: string -> string, fetchMethod: FetchMethod, ignoreFailedInstall: bool)

  datatype Event =
    | FetchDone(error: Option<Error>)
    | MetadataDone(error: Option<Error>, meta: Option<Meta>)
    | ProcessDone(rc: int, cancelled: bool)

  predicate IsRemoval(name: string) {
    name != "" && name[0] == '-'
  }

  function Removals(deps: seq<string>): seq<string> {
    if deps == [] then []
    else (if IsRemoval(deps[0]) then [deps[0][1..]] else []) + Removals(deps[1..])
  }

  function Installs(deps: seq<string>): seq<string> {
    if deps == [] then []
    else (if IsRemoval(deps[0]) then [] else [deps[0]]) + Installs(deps[1..])
  }

  /** The command that handles one list entry on its own. */
  function One(name: string): Command {
    if IsRemoval(name) then Remove([name[1..]]) else Install([name])
  }

  function Top(r: Resolver): Frame
    requires r.frames != []
  {
    r.frames[|r.frames| - 1]
  }

  function Below(r: Resolver): seq<Frame>
    requires r.frames != []
  {
    r.frames[..|r.frames| - 1]
  }

  function WithTop(r: Resolver, f: Frame): (s: Resolver)
    requires r.frames != []
    ensures s.frames != [] && Top(s) == f && Below(s) == Below(r) && |s.frames| == |r.frames|
  {
    r.(frames := Below(r) + [f])
  }

  function Rank(p: Phase): nat {
    match p
    case Repo => 8
    case Rpm => 6
    case SingleRpm => 4
    case SoftRpm => 3
    case Done => 2
  }

  /** dependency_handler */
  function Handler(c: Config, r: Resolver): Resolver
    requires r.frames != []
    decreases |r.frames|, Rank(Top(r).phase)
  {
    var f := Top(r);
    match f.phase
    case Repo => FetchRepodeps(c, r)
    case Rpm =>
      if f.dependencies != [] then
        BatchRpms(c, WithTop(r, f.(removeRpms := Some(Removals(f.dependencies)),
                                   installRpms := Some(Installs(f.dependencies)))))
      else
        Handler(c, WithTop(r, f.(phase := SoftRpm)))
    case SingleRpm =>
      if f.dependencies != [] then
        WithTop(r, f.(wait := Process(One(f.dependencies[0]), SingleCb)))
      else
        Handler(c, WithTop(r, f.(phase := SoftRpm)))
    case SoftRpm =>
      if f.softdependencies != [] then
        WithTop(r, f.(wait := Process(One(f.softdependencies[0]), SoftCb)))
      else
        Handler(c, WithTop(r, f.(phase := Done)))
    case Done => Finish(c, r, None)
  }

  /** restraint_fetch_repodeps */
  function FetchRepodeps(c: Config, r: Resolver): Resolver
    requires r.frames != []
    decreases |r.frames|, 7
  {
    var f := Top(r);
    if f.repodeps != [] then
      WithTop(r, f.(wait := Fetch(c.pathOf(f.repodeps[0]))))
    else
      Handler(c, WithTop(r, f.(phase := Rpm)))
  }

  /** dependency_batch_rpms.  Every name appended to a buffer adds at least its separating blank, so a
    * buffer is empty exactly when no name was appended to it. */
  function BatchRpms(c: Config, r: Resolver): Resolver
    requires r.frames != []
    decreases |r.frames|, 5
  {
    var f := Top(r);
    if f.removeRpms.Some? && f.removeRpms.value != [] then
      WithTop(r, f.(wait := Process(Remove(f.removeRpms.value), BatchRemoveCb)))
    else if f.installRpms.Some? && f.installRpms.value != [] then
      WithTop(r, f.(removeRpms := None, wait := Process(Install(f.installRpms.value), BatchInstallCb)))
    else
      Handler(c, WithTop(r, f.(removeRpms := None, installRpms := None, phase := SoftRpm)))
  }

  /** The finish_cb of the frame on top: the caller's callback for the root, ldep_finish_cb otherwise. */
  function Finish(c: Config, r: Resolver, error: Option<Error>): Resolver
    requires r.frames != []
    decreases |r.frames|, 0
  {
    var f := Top(r);
    var rest := Below(r);
    var left := if error.None? then r.finished + [Finished(f.path, f.origin, f.log)] else r.finished;
    if rest == [] then
      Resolver([], r.calls + [error], r.requested, left)
    else
      var s := Resolver(rest, r.calls, r.requested, left);
      if error.Some? then Finish(c, s, error) else Advance(c, s)
  }

  /** The continuation of a frame that is done with its current repodep. */
  function Advance(c: Config, r: Resolver): Resolver
    requires r.frames != []
    decreases |r.frames|, 9
  {
    var f := Top(r);
    FetchRepodeps(c, WithTop(r, f.(repodeps := Next(f.repodeps), wait := Nothing)))
  }

  /** restraint_install_dependencies */
  function Start(c: Config, m: Meta): Resolver {
    var phase := if c.fetchMethod.Unpack? then Repo else Rpm;
    var f := Frame(None, m, m.dependencies, m.softdependencies, m.repodeps, [], None, None, phase, Nothing, []);
    Handler(c, Resolver([f], [], {}, []))
  }

  predicate Enabled(r: Resolver, e: Event) {
    r.frames != [] &&
    match Top(r).wait
    case Fetch(_) => e.FetchDone?
    case Metadata(_) => e.MetadataDone?
    case Process(_, _) => e.ProcessDone?
    case _ => false
  }

  /** fetch_repodeps_finish_callback */
  function OnFetch(c: Config, r: Resolver, error: Option<Error>): Resolver
    requires r.frames != [] && Top(r).wait.Fetch?
  {
    var f := Top(r);
    var p := f.wait.path;
    if error.Some? then
      Finish(c, r, error)
    else if p !in f.processed then
      WithTop(r, f.(processed := [p] + f.processed, wait := Metadata(p))).(requested := r.requested + {p})
    else
      Advance(c, r)
  }

  /** The frame that dep_mtdata_finish_cb duplicates from its parent.  Everything it does not assign is
    * inherited, the parent's list of soft dependencies included. */
  function Nested(f: Frame, p: string, m: Meta): Frame {
    f.(path := Some(p), origin := m.(softdependencies := f.softdependencies),
       dependencies := m.dependencies, repodeps := m.repodeps, wait := Nothing, log := [])
  }

  function WithNested(r: Resolver, p: string, m: Meta): (s: Resolver)
    requires r.frames != []
    ensures s.frames != []
  {
    r.(frames := Below(r) + [Top(r).(wait := Child(p)), Nested(Top(r), p, m)])
  }

  /** dep_mtdata_finish_cb */
  function OnMetadata(c: Config, r: Resolver, error: Option<Error>, meta: Option<Meta>): Resolver
    requires r.frames != [] && Top(r).wait.Metadata?
  {
    var f := Top(r);
    var p := f.wait.path;
    if error.Some? then
      Finish(c, r, error)
    else if meta.Some? then
      FetchRepodeps(c, WithNested(r, p, meta.value))
    else
      Advance(c, r)
  }

  /** dependency_callback, dependency_batch_remove_cb, dependency_batch_install_cb and
    * softdependency_callback, with dependency_process_errors in front of the first three. */
  function OnProcess(c: Config, r: Resolver, rc: int, cancelled: bool): Resolver
    requires r.frames != [] && Top(r).wait.Process?
  {
    var f := Top(r).(log := Top(r).log + [Ran(Top(r).wait.command, rc)], wait := Nothing);
    var s := WithTop(r, f);
    if cancelled then
      Finish(c, s, Some(Cancelled))
    else if Top(r).wait.callback.SoftCb? then
      Handler(c, WithTop(r, f.(softdependencies := Next(f.softdependencies))))
    else if !c.ignoreFailedInstall && rc != 0 then
      Finish(c, s, Some(NonZero(rc)))
    else
      HardCallback(c, s, Top(r).wait.callback, rc)
  }

  /** What the callbacks of the hard dependencies do when the exit code does not end the frame. */
  function HardCallback(c: Config, r: Resolver, callback: Callback, rc: int): Resolver
    requires r.frames != [] && !callback.SoftCb?
  {
    var f := Top(r);
    if callback.SingleCb? then
      Handler(c, WithTop(r, f.(dependencies := Next(f.dependencies))))
    else if rc != 0 then
      Handler(c, WithTop(r, f.(removeRpms := None, installRpms := None, phase := SingleRpm)))
    else if callback.BatchRemoveCb? then
      BatchRpms(c, WithTop(r, f.(removeRpms := None)))
    else
      Handler(c, WithTop(r, f.(installRpms := None, dependencies := [], phase := SoftRpm)))
  }

  function Step(c: Config, r: Resolver, e: Event): Resolver
    requires Enabled(r, e)
  {
    match e
    case FetchDone(error) => OnFetch(c, r, error)
    case MetadataDone(error, meta) => OnMetadata(c, r, error, meta)
    case ProcessDone(rc, cancelled) => OnProcess(c, r, rc, cancelled)
  }
}
