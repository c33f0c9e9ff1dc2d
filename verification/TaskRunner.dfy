/** The callbacks of src/task.c, src/recipe.c and src/server.c as they update the shared AppData in place. */
module TaskRunner {
  import opened Common
  import M = TaskRunnerModel
  import Invariants = TaskRunnerInvariants

  class AppData {
    var tasks: seq<M.Task>
    var current: nat
    var state: M.RecipeState
    var aborted: M.Abort
    var cancelled: bool
    var fetchRetries: nat
    const hasRecipeUrl: bool
    var outstanding: multiset<M.Source>
    ghost var posts: seq<M.Post>
    ghost var runs: seq<nat>

    ghost function View(): M.App
      reads this
    {
      M.App(tasks, current, state, aborted, cancelled, fetchRetries, hasRecipeUrl, outstanding, posts, runs)
    }

    /** A recipe that has just been parsed, at the end of RECIPE_RUN. */
    constructor (tasks: seq<M.Task>, hasRecipeUrl: bool)
      ensures View() == M.Begin(tasks, hasRecipeUrl)
    {
      this.tasks, current, state, aborted, cancelled := tasks, 0, M.Running, M.NotAborted, false;
      fetchRetries, this.hasRecipeUrl, outstanding, posts, runs := 0, hasRecipeUrl, multiset{M.TaskHandler}, [], [];
    }

    method SetTask(task: M.Task)
      requires current < |tasks|
      modifies `tasks
      ensures View() == old(M.WithCur(View(), task))
    {
      tasks := tasks[current := task];
    }

    method Fail()
      requires current < |tasks|
      modifies `tasks
      ensures View() == old(M.Fails(View()))
    {
      SetTask(tasks[current].(state := M.Complete, error := Some(M.Failed)));
    }

    method Goto(s: M.TaskState)
      requires current < |tasks|
      modifies `tasks
      ensures View() == old(M.Goto(View(), s))
    {
      SetTask(tasks[current].(state := s));
    }

    method AddSource(s: M.Source)
      modifies `outstanding
      ensures View() == old(M.Adds(View(), s))
    {
      outstanding := outstanding + multiset{s};
    }

    /** restraint_task_status */
    method TaskStatus(status: M.Status)
      modifies `outstanding, `posts
      ensures View() == old(M.Posts(View(), status))
    {
      posts := posts + [M.Post(current, status)];
      AddSource(M.StatusMessage);
    }

    /** restraint_next_task: whether the handler goes on with another task. */
    method NextTask() returns (result: bool)
      requires current < |tasks|
      modifies this
      ensures result == (old(current) + 1 < |old(tasks)|)
      ensures (if result then M.Adds(View(), M.TaskHandler) else View()) == old(M.NextTask(View()))
    {
      current := current + 1;
      if current < |tasks| {
        SetTask(tasks[current].(state := M.Idle));
        result := true;
      } else {
        state, aborted := M.RecipeComplete, M.NotAborted;
        AddSource(M.RecipeHandler);
        result := false;
      }
    }

    // ---- task_handler, case by case; the result says whether it stays in the main loop ------------------

    /** TASK_IDLE */
    method HandleIdle(c: M.Circumstances) returns (result: bool)
      requires current < |tasks| && tasks[current].state.Idle?
      modifies this
      ensures (if result then M.Adds(View(), M.TaskHandler) else View()) == old(M.HandlerStep(View(), c))
    {
      var task := tasks[current];
      result := true;
      if c.readable {
        task := task.(started := c.started, localWatchdog := c.localWatchdog);
        if task.finished {
          task := task.(state := M.Next);
        } else if cancelled || task.localWatchdog {
          task := task.(state := M.Complete);
        } else if task.started {
          task := task.(state := M.MetadataParse);
        } else {
          TaskStatus(M.StatusRunning);
          result := false;
          fetchRetries := 0;
          task := task.(state := M.Fetch);
        }
      } else {
        task := task.(state := M.Complete, error := Some(M.Failed), unreadable := true);
      }
      SetTask(task);
    }

    /** TASK_FETCH, TASK_METADATA_PARSE and TASK_REFRESH_ROLES */
    method HandleFetching(c: M.Circumstances) returns (result: bool)
      requires current < |tasks|
      requires tasks[current].state in {M.Fetch, M.MetadataParse, M.RefreshRoles}
      modifies this
      ensures (if result then M.Adds(View(), M.TaskHandler) else View()) == old(M.HandlerStep(View(), c))
    {
      var task := tasks[current];
      result := true;
      if task.state.Fetch? {
        if !c.wait {
          AddSource(M.FetchOp);
          result := false;
        }
      } else if task.state.MetadataParse? {
        AddSource(M.MetadataOp);
        result := false;
      } else if hasRecipeUrl {
        if !c.wait {
          AddSource(M.RolesOp);
          result := false;
        }
      } else {
        Goto(M.Env);
      }
    }

    /** TASK_ENV, TASK_WATCHDOG and TASK_DEPENDENCIES */
    method HandlePreparing(c: M.Circumstances) returns (result: bool)
      requires current < |tasks|
      requires tasks[current].state in {M.Env, M.Watchdog, M.Dependencies}
      modifies this
      ensures (if result then M.Adds(View(), M.TaskHandler) else View()) == old(M.HandlerStep(View(), c))
    {
      var task := tasks[current];
      result := true;
      if task.state.Env? {
        Goto(M.Watchdog);
      } else if task.state.Watchdog? {
        if !task.started {
          AddSource(M.WatchdogMessage);
          result := false;
        }
        Goto(M.Dependencies);
      } else {
        if !task.started {
          if c.wait {
            return;
          }
          AddSource(if c.noDependencies then M.TaskHandler else M.DependencyOp);
          result := false;
        }
        SetTask(task.(state := M.Run));
      }
    }

    /** TASK_RUN */
    method HandleRun(c: M.Circumstances) returns (result: bool)
      requires current < |tasks| && tasks[current].state.Run?
      modifies this
      ensures (if result then M.Adds(View(), M.TaskHandler) else View()) == old(M.HandlerStep(View(), c))
    {
      var task := tasks[current];
      if cancelled {
        SetTask(task.(state := M.Complete));
        result := true;
      } else {
        runs := runs + [current];
        AddSource(M.RunOp);
        result := false;
        SetTask(task.(started := true));
      }
    }

    /** TASK_COMPLETE */
    method HandleComplete(c: M.Circumstances) returns (result: bool)
      requires current < |tasks| && tasks[current].state.Complete?
      modifies this
      ensures (if result then M.Adds(View(), M.TaskHandler) else View()) == old(M.HandlerStep(View(), c))
    {
      var error := tasks[current].error;
      if cancelled && aborted != M.NotAborted {
        error := Some(M.AbortedByUser);
      }
      SetTask(tasks[current].(state := M.Completed, error := error));
      result := true;
    }

    /** TASK_COMPLETED */
    method HandleCompleted(c: M.Circumstances) returns (result: bool)
      requires current < |tasks| && tasks[current].state.Completed?
      modifies this
      ensures (if result then M.Adds(View(), M.TaskHandler) else View()) == old(M.HandlerStep(View(), c))
    {
      var task := tasks[current];
      SetTask(task.(state := M.Next, error := None));
      if task.error.Some? {
        TaskStatus(M.StatusAborted(task.error.value));
      } else {
        TaskStatus(M.StatusCompleted);
      }
      if cancelled && aborted == M.AbortedTask {
        aborted := M.NotAborted;
        cancelled := false;
      }
      result := false;
    }

    /** task_handler, as the main loop calls it: its source stays only for G_SOURCE_CONTINUE. */
    method TaskHandler(c: M.Circumstances)
      requires M.Enabled(View(), M.OnTaskHandler(c))
      modifies this
      ensures View() == old(M.Step(View(), M.OnTaskHandler(c)))
    {
      outstanding := outstanding - multiset{M.TaskHandler};
      if current >= |tasks| {
        return;
      }
      var result;
      match tasks[current].state {
        case Idle => result := HandleIdle(c);
        case Fetch => result := HandleFetching(c);
        case MetadataParse => result := HandleFetching(c);
        case RefreshRoles => result := HandleFetching(c);
        case Env => result := HandlePreparing(c);
        case Watchdog => result := HandlePreparing(c);
        case Dependencies => result := HandlePreparing(c);
        case Run => result := HandleRun(c);
        case Complete => result := HandleComplete(c);
        case Completed => result := HandleCompleted(c);
        case Next => result := NextTask();
      }
      if result {
        AddSource(M.TaskHandler);
      }
    }

    // ---- the callbacks of the operations -----------------------------------------------------------------

    /** fetch_finish_callback, and task_handler_callback for a task that is a package. */
    method FetchFinish(failed: bool)
      requires current < |tasks|
      modifies this
      ensures View() == old(M.OnFetchDone(M.Removes(View(), M.FetchOp), failed))
    {
      outstanding := outstanding - multiset{M.FetchOp};
      if failed {
        if !tasks[current].fromPackage && fetchRetries < M.TASK_FETCH_RETRIES {
          fetchRetries := fetchRetries + 1;
          AddSource(M.FetchTimer);
          return;
        }
        Fail();
      } else {
        Goto(M.MetadataParse);
      }
      AddSource(M.TaskHandler);
    }

    /** metadata_finish_cb */
    method MetadataFinish(failed: bool, hasMetadata: bool)
      requires current < |tasks|
      modifies this
      ensures View() == old(M.OnMetadataDone(M.Removes(View(), M.MetadataOp), failed, hasMetadata))
    {
      outstanding := outstanding - multiset{M.MetadataOp};
      if failed {
        Fail();
      } else if tasks[current].error.Some? || !hasMetadata {
        Goto(M.Complete);
      } else {
        fetchRetries := 0;
        Goto(M.RefreshRoles);
      }
      AddSource(M.TaskHandler);
    }

    /** recipe_fetch_complete */
    method RecipeFetchComplete(failed: bool, unusable: bool)
      requires current < |tasks|
      modifies this
      ensures View() == old(M.OnRolesDone(M.Removes(View(), M.RolesOp), failed, unusable))
    {
      outstanding := outstanding - multiset{M.RolesOp};
      if failed {
        if fetchRetries < M.ROLE_REFRESH_RETRIES {
          fetchRetries := fetchRetries + 1;
          AddSource(M.RolesTimer);
          return;
        }
        Fail();
      } else if unusable {
        Fail();
      } else {
        Goto(M.Env);
      }
      AddSource(M.TaskHandler);
    }

    /** fetch_retry and refresh_role_retry */
    method Retry(e: M.Event)
      requires (e.FetchRetry? || e.RolesRetry?) && M.Enabled(View(), e)
      modifies this
      ensures View() == old(M.Step(View(), e))
    {
      outstanding := outstanding - multiset{if e.FetchRetry? then M.FetchTimer else M.RolesTimer};
      SetTask(tasks[current].(state := if e.FetchRetry? then M.Fetch else M.RefreshRoles));
      AddSource(M.TaskHandler);
    }

    /** dependency_finish_cb */
    method DependencyFinish(failed: bool)
      requires current < |tasks|
      modifies this
      ensures View() == old(M.OnDependenciesDone(M.Removes(View(), M.DependencyOp), failed))
    {
      outstanding := outstanding - multiset{M.DependencyOp};
      if failed {
        Fail();
      } else {
        Goto(M.Run);
      }
      AddSource(M.TaskHandler);
    }

    /** task_finish_callback */
    method TaskFinish(rc: int, localWatchdog: bool)
      requires current < |tasks|
      modifies this
      ensures View() == old(M.OnRunDone(M.Removes(View(), M.RunOp), rc, localWatchdog))
    {
      outstanding := outstanding - multiset{M.RunOp};
      var task := tasks[current].(state := M.Complete);
      if rc == 0 {
        SetTask(task);
      } else if localWatchdog {
        SetTask(task.(localWatchdog := true, error := Some(M.Failed)));
      } else if task.rhtsCompat {
        SetTask(task.(error := Some(M.Failed)));
      } else {
        SetTask(task);
      }
      AddSource(M.PluginsOp);
    }

    /** The callbacks that only add the task handler again. */
    method GiveBack(e: M.Event)
      requires (e.StatusSent? || e.WatchdogSent? || e.PluginsDone?) && M.Enabled(View(), e)
      modifies this
      ensures View() == old(M.Step(View(), e))
    {
      var source := match e
        case StatusSent => M.StatusMessage
        case WatchdogSent => M.WatchdogMessage
        case _ => M.PluginsOp;
      outstanding := outstanding - multiset{source};
      AddSource(M.TaskHandler);
    }

    /** recipe_handler in RECIPE_COMPLETE */
    method RecipeHandler()
      modifies this
      ensures View() == old(M.OnRecipe(M.Removes(View(), M.RecipeHandler)))
    {
      outstanding := outstanding - multiset{M.RecipeHandler};
      cancelled := false;
      state := M.RecipeIdle;
    }

    /** The abort branches of server_recipe_callback. */
    method Abort(e: M.Event)
      requires (e.AbortRecipe? || e.AbortTask?) && M.Enabled(View(), e)
      modifies this
      ensures View() == old(M.Step(View(), e))
    {
      aborted := if e.AbortRecipe? then M.AbortedRecipe else M.AbortedTask;
      cancelled := true;
    }

    /** The main loop: any callback that is due keeps the machine valid. */
    method Dispatch(e: M.Event)
      requires Invariants.Valid(View()) && M.Enabled(View(), e)
      modifies this
      ensures View() == old(M.Step(View(), e)) && Invariants.Valid(View())
    {
      hide Invariants.Valid;
      Invariants.StepKeepsValid(View(), e);
      match e {
        case OnTaskHandler(c) => TaskHandler(c);
        case FetchDone(failed) => FetchFinish(failed);
        case FetchRetry => Retry(e);
        case MetadataDone(failed, hasMetadata) => MetadataFinish(failed, hasMetadata);
        case RolesDone(failed, unusable) => RecipeFetchComplete(failed, unusable);
        case RolesRetry => Retry(e);
        case StatusSent => GiveBack(e);
        case WatchdogSent => GiveBack(e);
        case DependenciesDone(failed) => DependencyFinish(failed);
        case RunDone(rc, localWatchdog) => TaskFinish(rc, localWatchdog);
        case PluginsDone => GiveBack(e);
        case OnRecipeHandler => RecipeHandler();
        case AbortRecipe => Abort(e);
        case AbortTask => Abort(e);
      }
    }
  }
}
