/** The task state machine of src/task.c with the parts of src/recipe.c and src/server.c that drive it.
  *
  * `outstanding` holds everything that will call back into the machine: main-loop sources and operations
  * in flight.  A step takes the one that fires and adds what its callback adds. */
module TaskRunnerModel {
  import opened Common

  const TASK_FETCH_RETRIES := 30
  const ROLE_REFRESH_RETRIES := 3

  datatype TaskState =
    | Idle | Fetch | MetadataParse | RefreshRoles | Env | Watchdog | Dependencies | Run
    | Complete | Completed | Next

  datatype Error = AbortedByUser | Failed

  /** `unreadable` records that the task's section of the config file could not be read. */
  datatype Task = Task(
    finished: bool,
    fromPackage: bool,
    rhtsCompat: bool,
    started: bool,
    localWatchdog: bool,
    state: TaskState,
    error: Option<Error>,
    unreadable: bool)

  datatype Source =
    | TaskHandler | FetchOp | FetchTimer | MetadataOp | RolesOp | RolesTimer | StatusMessage
    | WatchdogMessage | DependencyOp | RunOp | PluginsOp | RecipeHandler

  datatype RecipeState = Running | RecipeComplete | RecipeIdle

  datatype Abort = NotAborted | AbortedRecipe | AbortedTask

  datatype Status = StatusRunning | StatusCompleted | StatusAborted(reason: Error)

  datatype Post = Post(task: nat, status: Status)

  /** `current` is the position of app_data->tasks, |tasks| for NULL.  `posts` are the status messages
    * queued so far and `runs` the tasks that task_run was called for. */
  datatype App = App(
    tasks: seq<Task>,
    current: nat,
    recipe: RecipeState,
    aborted: Abort,
    cancelled: bool,
    fetchRetries: nat,
    hasRecipeUrl: bool,
    outstanding: multiset<Source>,
    posts: seq<Post>,
    runs: seq<nat>)

  /** What a handler step meets: the task's config section, an unhealthy recipe to wait for, and whether
    * the resolver finished without having to wait for anything. */
  datatype Circumstances = Circumstances(readable: bool, started: bool, localWatchdog: bool, wait: bool,
                                         noDependencies: bool)

  datatype Event =
    | OnTaskHandler(c: Circumstances)
    | FetchDone(failed: bool)
    | FetchRetry
    | MetadataDone(failed: bool, hasMetadata: bool)
    | RolesDone(failed: bool, unusable: bool)
    | RolesRetry
    | StatusSent
    | WatchdogSent
    | DependenciesDone(failed: bool)
    | RunDone(rc: int, localWatchdog: bool)
    | PluginsDone
    | OnRecipeHandler
    | AbortRecipe
    | AbortTask

  /** The source whose callback an event is; a request to the server is nobody's callback. */
  function SourceOf(e: Event): Option<Source> {
    match e
    case OnTaskHandler(_) => Some(TaskHandler)
    case FetchDone(_) => Some(FetchOp)
    case FetchRetry => Some(FetchTimer)
    case MetadataDone(_, _) => Some(MetadataOp)
    case RolesDone(_, _) => Some(RolesOp)
    case RolesRetry => Some(RolesTimer)
    case StatusSent => Some(StatusMessage)
    case WatchdogSent => Some(WatchdogMessage)
    case DependenciesDone(_) => Some(DependencyOp)
    case RunDone(_, _) => Some(RunOp)
    case PluginsDone => Some(PluginsOp)
    case OnRecipeHandler => Some(RecipeHandler)
    case AbortRecipe => None
    case AbortTask => None
  }

  /** Callbacks of task operations and abort requests look at the current task. */
  predicate NeedsTask(e: Event) {
    !e.OnTaskHandler? && !e.OnRecipeHandler?
  }

  predicate Enabled(a: App, e: Event) {
    && (SourceOf(e).Some? ==> SourceOf(e).value in a.outstanding)
    && (NeedsTask(e) ==> a.current < |a.tasks|)
  }

  function Cur(a: App): Task
    requires a.current < |a.tasks|
  {
    a.tasks[a.current]
  }

  function WithCur(a: App, t: Task): (b: App)
    requires a.current < |a.tasks|
    ensures b.current == a.current && |b.tasks| == |a.tasks| && Cur(b) == t
  {
    a.(tasks := a.tasks[a.current := t])
  }

  function Goto(a: App, s: TaskState): App
    requires a.current < |a.tasks|
  {
    WithCur(a, Cur(a).(state := s))
  }

  function Fails(a: App): App
    requires a.current < |a.tasks|
  {
    WithCur(a, Cur(a).(state := Complete, error := Some(Failed)))
  }

  function Adds(a: App, s: Source): App {
    a.(outstanding := a.outstanding + multiset{s})
  }

  /** The source that fires is gone unless its callback keeps it. */
  function Removes(a: App, s: Source): App {
    a.(outstanding := a.outstanding - multiset{s})
  }

  /** restraint_task_status */
  function Posts(a: App, s: Status): App {
    Adds(a.(posts := a.posts + [Post(a.current, s)]), StatusMessage)
  }

  /** restraint_next_task */
  function NextTask(a: App): App
    requires a.current < |a.tasks|
  {
    var b := a.(current := a.current + 1);
    if b.current < |b.tasks| then Adds(Goto(b, Idle), TaskHandler)
    else Adds(b.(recipe := RecipeComplete, aborted := NotAborted), RecipeHandler)
  }

  /** task_handler once its own source has been taken; G_SOURCE_CONTINUE adds it back. */
  function HandlerStep(a: App, c: Circumstances): App
    requires a.current < |a.tasks|
  {
    var t := Cur(a);
    match t.state
    case Idle =>
      if !c.readable then
        Adds(WithCur(a, t.(state := Complete, error := Some(Failed), unreadable := true)), TaskHandler)
      else
        var t := t.(started := c.started, localWatchdog := c.localWatchdog);
        if t.finished then Adds(WithCur(a, t.(state := Next)), TaskHandler)
        else if a.cancelled || t.localWatchdog then Adds(WithCur(a, t.(state := Complete)), TaskHandler)
        else if t.started then Adds(WithCur(a, t.(state := MetadataParse)), TaskHandler)
        else Posts(WithCur(a, t.(state := Fetch)).(fetchRetries := 0), StatusRunning)
    case Fetch =>
      if c.wait then Adds(a, TaskHandler) else Adds(a, FetchOp)
    case MetadataParse =>
      Adds(a, MetadataOp)
    case RefreshRoles =>
      if !a.hasRecipeUrl then Adds(Goto(a, Env), TaskHandler)
      else if c.wait then Adds(a, TaskHandler)
      else Adds(a, RolesOp)
    case Env =>
      Adds(Goto(a, Watchdog), TaskHandler)
    case Watchdog =>
      Adds(Goto(a, Dependencies), if t.started then TaskHandler else WatchdogMessage)
    case Dependencies =>
      if t.started then Adds(Goto(a, Run), TaskHandler)
      else if c.wait then Adds(a, TaskHandler)
      else Adds(Goto(a, Run), if c.noDependencies then TaskHandler else DependencyOp)
    case Run =>
      if a.cancelled then Adds(Goto(a, Complete), TaskHandler)
      else Adds(WithCur(a, t.(started := true)).(runs := a.runs + [a.current]), RunOp)
    case Complete =>
      var error := if a.cancelled && a.aborted != NotAborted then Some(AbortedByUser) else t.error;
      Adds(WithCur(a, t.(state := Completed, error := error)), TaskHandler)
    case Completed =>
      var b := Posts(WithCur(a, t.(state := Next, error := None)),
                     if t.error.Some? then StatusAborted(t.error.value) else StatusCompleted);
      if a.cancelled && a.aborted == AbortedTask then b.(aborted := NotAborted, cancelled := false) else b
    case Next =>
      NextTask(a)
  }

  /** fetch_finish_callback, and task_handler_callback for a task that is a package. */
  function OnFetchDone(a: App, failed: bool): App
    requires a.current < |a.tasks|
  {
    if !failed then Adds(Goto(a, MetadataParse), TaskHandler)
    else if !Cur(a).fromPackage && a.fetchRetries < TASK_FETCH_RETRIES then
      Adds(a.(fetchRetries := a.fetchRetries + 1), FetchTimer)
    else Adds(Fails(a), TaskHandler)
  }

  /** metadata_finish_cb */
  function OnMetadataDone(a: App, failed: bool, hasMetadata: bool): App
    requires a.current < |a.tasks|
  {
    if failed then Adds(Fails(a), TaskHandler)
    else if Cur(a).error.Some? || !hasMetadata then Adds(Goto(a, Complete), TaskHandler)
    else Adds(Goto(a, RefreshRoles).(fetchRetries := 0), TaskHandler)
  }

  /** recipe_fetch_complete */
  function OnRolesDone(a: App, failed: bool, unusable: bool): App
    requires a.current < |a.tasks|
  {
    if failed then
      if a.fetchRetries < ROLE_REFRESH_RETRIES then Adds(a.(fetchRetries := a.fetchRetries + 1), RolesTimer)
      else Adds(Fails(a), TaskHandler)
    else if unusable then Adds(Fails(a), TaskHandler)
    else Adds(Goto(a, Env), TaskHandler)
  }

  /** dependency_finish_cb */
  function OnDependenciesDone(a: App, failed: bool): App
    requires a.current < |a.tasks|
  {
    Adds(if failed then Fails(a) else Goto(a, Run), TaskHandler)
  }

  /** task_finish_callback; the plugins it runs give the handler back. */
  function OnRunDone(a: App, rc: int, localWatchdog: bool): App
    requires a.current < |a.tasks|
  {
    var t := Cur(a).(state := Complete);
    var t := if rc == 0 then t
      else if localWatchdog then t.(localWatchdog := true, error := Some(Failed))
      else if t.rhtsCompat then t.(error := Some(Failed))
      else t;
    Adds(WithCur(a, t), PluginsOp)
  }

  /** recipe_handler in RECIPE_COMPLETE */
  function OnRecipe(a: App): App {
    a.(recipe := RecipeIdle, cancelled := false)
  }

  function Callback(a: App, e: Event): App
    requires NeedsTask(e) ==> a.current < |a.tasks|
  {
    match e
    case OnTaskHandler(c) => if a.current < |a.tasks| then HandlerStep(a, c) else a
    case FetchDone(failed) => OnFetchDone(a, failed)
    case FetchRetry => Adds(Goto(a, Fetch), TaskHandler)
    case MetadataDone(failed, hasMetadata) => OnMetadataDone(a, failed, hasMetadata)
    case RolesDone(failed, unusable) => OnRolesDone(a, failed, unusable)
    case RolesRetry => Adds(Goto(a, RefreshRoles), TaskHandler)
    case StatusSent => Adds(a, TaskHandler)
    case WatchdogSent => Adds(a, TaskHandler)
    case DependenciesDone(failed) => OnDependenciesDone(a, failed)
    case RunDone(rc, localWatchdog) => OnRunDone(a, rc, localWatchdog)
    case PluginsDone => Adds(a, TaskHandler)
    case OnRecipeHandler => OnRecipe(a)
    case AbortRecipe => a.(aborted := AbortedRecipe, cancelled := true)
    case AbortTask => a.(aborted := AbortedTask, cancelled := true)
  }

  function Step(a: App, e: Event): App
    requires Enabled(a, e)
  {
    Callback(match SourceOf(e) case Some(s) => Removes(a, s) case None => a, e)
  }

  /** A recipe whose RECIPE_RUN step has added the task handler. */
  function Begin(tasks: seq<Task>, hasRecipeUrl: bool): App {
    App(tasks, 0, Running, NotAborted, false, 0, hasRecipeUrl, multiset{TaskHandler}, [], [])
  }

  predicate Fresh(t: Task) {
    t.state == Idle && t.error.None? && !t.unreadable
  }

  predicate IsRun(a: App, run: seq<Event>)
    decreases |run|
  {
    run == [] || (Enabled(a, run[0]) && IsRun(Step(a, run[0]), run[1..]))
  }

  function After(a: App, run: seq<Event>): App
    requires IsRun(a, run)
    decreases |run|
  {
    if run == [] then a else After(Step(a, run[0]), run[1..])
  }
}
