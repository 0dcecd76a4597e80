/**
 * `TranscriptionManager.transcribe_file` (main.py): the checks made before a
 * worker is started, the poll loop that forwards the worker's progress and
 * honours the cancel flag, the classification of the worker's single
 * result, and the `finally` block that always resets the manager.
 *
 * The worker process and the other threads are the environment. The loop
 * sleeps once per round; what happens during the `k`-th sleep is the `k`-th
 * `Tick` of a schedule: the worker may queue progress messages, may exit
 * (leaving at most one result), and the user may ask for cancellation.
 * Before any sleep, the worker may already have exited by the time the loop
 * first calls `is_alive()`; the loop then does not run at all.
 */
module Jobs {
  import opened Wrappers
  import opened Settings

  /** One progress dictionary, `{"status": ..., "percent": ...}`. */
  datatype Progress = Progress(status: string, percent: int)

  /** The two dictionaries the worker puts on the result queue. */
  datatype WorkerResult = OutputPath(path: string) | WorkerError(message: string)

  /** Whether the worker exits during a sleep, and the result it leaves if it does. */
  datatype Exit = StillRunning | Exited(result: Option<WorkerResult>)

  /** What happens during one `time.sleep(0.1)`. */
  datatype Tick = Tick(emitted: seq<Progress>, exit: Exit, cancel: bool)

  /** The `settings` argument: absent, a settings object, a dictionary, or any other value (with its truthiness). */
  datatype SettingsArg = NoSettings | SettingsObject(o: Options) | SettingsDict(d: map<string, Value>) | OtherValue(truthy: bool)

  /** How one call ends: it returns the output path, or raises. */
  datatype Outcome = Completed(path: string) | Cancelled | NotFound(path: string) | Failed(message: string)

  /** The started worker as the manager sees it. */
  datatype Proc = Proc(alive: bool, terminated: bool)

  const NoModelMessage := "Caminho do modelo não definido. Por favor, selecione um modelo primeiro."
  const BadSettingsMessage := "Configurações de transcrição inválidas"
  const NoResultMessage := "Processo de transcrição não retornou nenhum resultado."

  /** `not model_path` fails for an empty path or a JSON `null` (`None`). */
  predicate ModelSet(modelPath: Option<string>) {
    modelPath.Some? && modelPath.value != ""
  }

  /**
   * `settings or self.default_settings`, then `to_dict()` for a settings
   * object, the dictionary itself, or `TypeError` (`None`) for anything else.
   */
  function PrepareSettings(arg: SettingsArg, defaults: Options): Option<map<string, Value>> {
    match arg
    case NoSettings => Some(ToDict(defaults))
    case SettingsObject(o) => Some(ToDict(o))
    case SettingsDict(d) => if d == map[] then Some(ToDict(defaults)) else Some(d)
    case OtherValue(truthy) => if truthy then None else Some(ToDict(defaults))
  }

  /** A sleep that ends the loop: the worker exits or cancellation is requested. */
  predicate Stops(t: Tick) {
    t.cancel || t.exit.Exited?
  }

  predicate HasStop(ticks: seq<Tick>) {
    exists i :: 0 <= i < |ticks| && Stops(ticks[i])
  }

  /** The schedule lets the loop end: it has a sleep at all when the cancel flag is set already, and one that stops otherwise. */
  predicate Ends(cancel0: bool, ticks: seq<Tick>) {
    (cancel0 && ticks != []) || HasStop(ticks)
  }

  /** The first sleep that ends the loop. */
  function FirstStop(ticks: seq<Tick>): (n: nat)
    requires HasStop(ticks)
    ensures n < |ticks| && Stops(ticks[n])
    ensures forall j :: 0 <= j < n ==> !Stops(ticks[j])
  {
    if Stops(ticks[0]) then 0
    else
      assert HasStop(ticks[1..]) by {
        var i :| 0 <= i < |ticks| && Stops(ticks[i]);
        assert ticks[1..][i - 1] == ticks[i];
      }
      FirstStop(ticks[1..]) + 1
  }

  /** The round in which the loop ends: the first one if the cancel flag is already set. */
  function LastRound(cancel0: bool, ticks: seq<Tick>): (n: nat)
    requires Ends(cancel0, ticks)
    ensures n < |ticks|
  {
    if cancel0 && ticks != [] then 0 else FirstStop(ticks)
  }

  /** The progress messages the worker queues during the given sleeps, in order. */
  function Emitted(ticks: seq<Tick>): seq<Progress> {
    if ticks == [] then [] else Emitted(ticks[..|ticks| - 1]) + ticks[|ticks| - 1].emitted
  }

  /** The checks before the worker starts all pass. */
  predicate Launches(modelPath: Option<string>, fileExists: bool, arg: SettingsArg, defaults: Options) {
    ModelSet(modelPath) && fileExists && PrepareSettings(arg, defaults).Some?
  }

  /** The result queue after a worker exit. */
  function Queued(e: Exit): seq<WorkerResult> {
    if e.Exited? && e.result.Some? then [e.result.value] else []
  }

  /** The cancel flag is seen in the last round. */
  predicate CancelSeen(cancel0: bool, ticks: seq<Tick>)
    requires Ends(cancel0, ticks)
  {
    cancel0 || ticks[LastRound(cancel0, ticks)].cancel
  }

  /**
   * The loop ends: the worker had already exited when the loop first looked
   * at it (`early`), or the schedule stops the loop.
   */
  predicate Finishes(early: Exit, cancel0: bool, ticks: seq<Tick>) {
    early.Exited? || Ends(cancel0, ticks)
  }

  /** The loop ran and saw the cancel flag in its last round. */
  predicate CancelTaken(early: Exit, cancel0: bool, ticks: seq<Tick>)
    requires Finishes(early, cancel0, ticks)
  {
    early.StillRunning? && CancelSeen(cancel0, ticks)
  }

  /** How the worker had ended when the loop stopped looking at it. */
  function FinalExit(early: Exit, cancel0: bool, ticks: seq<Tick>): Exit
    requires Finishes(early, cancel0, ticks)
  {
    if early.Exited? then early else ticks[LastRound(cancel0, ticks)].exit
  }

  /** The progress messages the loop hands to the callback: none when it does not run. */
  function Reported(early: Exit, cancel0: bool, ticks: seq<Tick>): seq<Progress>
    requires Finishes(early, cancel0, ticks)
  {
    if early.Exited? then [] else Emitted(ticks[..LastRound(cancel0, ticks)])
  }

  /** What the code after the loop makes of the result queue. */
  function ResultOutcome(queue: seq<WorkerResult>): Outcome {
    if queue == [] then Failed(NoResultMessage)
    else match queue[0]
      case WorkerError(m) => Failed(m)
      case OutputPath(p) => Completed(p)
  }

  /** How `transcribe_file` ends. */
  function Expected(modelPath: Option<string>, filepath: string, fileExists: bool, arg: SettingsArg,
                    defaults: Options, cancel0: bool, early: Exit, ticks: seq<Tick>): Outcome
    requires Launches(modelPath, fileExists, arg, defaults) ==> Finishes(early, cancel0, ticks)
  {
    if !ModelSet(modelPath) then Failed(NoModelMessage)
    else if !fileExists then NotFound(filepath)
    else if PrepareSettings(arg, defaults).None? then Failed(BadSettingsMessage)
    else if CancelTaken(early, cancel0, ticks) then Cancelled
    else ResultOutcome(Queued(FinalExit(early, cancel0, ticks)))
  }

  class TranscriptionManager {
    var modelPath: Option<string>
    var defaultSettings: Options
    var transcriptionProcess: Option<Proc>
    var cancelTranscription: bool
    /** The calls made to the progress callback, in order. */
    var progressReported: seq<Progress>
    /** The calls made to the output callback, in order. */
    var outputsReported: seq<string>

    constructor (modelPath: Option<string>, presetsFile: string)
      ensures this.modelPath == modelPath && defaultSettings == Defaults(presetsFile)
      ensures transcriptionProcess == None && !cancelTranscription
      ensures progressReported == [] && outputsReported == []
    {
      this.modelPath := modelPath;
      defaultSettings := Defaults(presetsFile);
      transcriptionProcess := None;
      cancelTranscription := false;
      progressReported := [];
      outputsReported := [];
    }

    /** The inner `while not progress_queue.empty()` loop: every queued message, in order, to the callback. */
    method DrainProgress(queue: seq<Progress>, hasCallback: bool)
      modifies this
      ensures progressReported == old(progressReported) + (if hasCallback then queue else [])
      ensures modelPath == old(modelPath) && defaultSettings == old(defaultSettings)
      ensures transcriptionProcess == old(transcriptionProcess) && cancelTranscription == old(cancelTranscription)
      ensures outputsReported == old(outputsReported)
    {
      for k := 0 to |queue|
        invariant progressReported == old(progressReported) + (if hasCallback then queue[..k] else [])
        invariant modelPath == old(modelPath) && defaultSettings == old(defaultSettings)
        invariant transcriptionProcess == old(transcriptionProcess) && cancelTranscription == old(cancelTranscription)
        invariant outputsReported == old(outputsReported)
      {
        if hasCallback {
          assert queue[..k + 1] == queue[..k] + [queue[k]];
          progressReported := progressReported + [queue[k]];
        }
      }
      assert queue[..|queue|] == queue;
    }

    /**
     * `transcribe_file(filepath, output_callback, settings, progress_callback)`
     * with `os.path.exists(filepath)` given as `fileExists` and the
     * environment's behaviour as `early` (the worker's state at the first
     * `is_alive()`) and `schedule`. The call ends as `Expected` says; each
     * progress message queued before the last sleep reaches the progress
     * callback once, in order; the output callback is called once, with the
     * returned path, on success only; afterwards no worker is held and the
     * cancel flag is clear. The ghost `worker` is the started worker in its
     * final state: it has exited, and it was terminated exactly when
     * cancellation found it still running.
     */
    method TranscribeFile(filepath: string, fileExists: bool, settings: SettingsArg,
                          hasOutputCallback: bool, hasProgressCallback: bool, early: Exit, schedule: seq<Tick>)
      returns (outcome: Outcome, ghost worker: Option<Proc>)
      requires Launches(modelPath, fileExists, settings, defaultSettings) ==> Finishes(early, cancelTranscription, schedule)
      modifies this
      ensures outcome == Expected(old(modelPath), filepath, fileExists, settings, old(defaultSettings),
                                  old(cancelTranscription), early, schedule)
      ensures transcriptionProcess == None && !cancelTranscription
      ensures modelPath == old(modelPath) && defaultSettings == old(defaultSettings)
      ensures outputsReported == old(outputsReported)
                                 + (if hasOutputCallback && outcome.Completed? then [outcome.path] else [])
      ensures !Launches(old(modelPath), fileExists, settings, old(defaultSettings)) ==>
        progressReported == old(progressReported) && worker == None
      ensures Launches(old(modelPath), fileExists, settings, old(defaultSettings)) ==>
        var cancel0 := old(cancelTranscription);
        && progressReported == old(progressReported)
             + (if hasProgressCallback then Reported(early, cancel0, schedule) else [])
        && worker.Some? && !worker.value.alive
        && (worker.value.terminated <==> outcome.Cancelled? && FinalExit(early, cancel0, schedule).StillRunning?)
    {
      ghost var cancel0 := cancelTranscription;
      worker := None;
      if !ModelSet(modelPath) {
        outcome := Failed(NoModelMessage);
      } else if !fileExists {
        outcome := NotFound(filepath);
      } else if PrepareSettings(settings, defaultSettings).None? {
        outcome := Failed(BadSettingsMessage);
      } else {
        outcome, worker := RunWorker(hasOutputCallback, hasProgressCallback, early, schedule);
      }
      // finally
      if transcriptionProcess.Some? {
        if transcriptionProcess.value.alive {
          transcriptionProcess := Some(transcriptionProcess.value.(alive := false));
        }
        transcriptionProcess := None;
      }
      cancelTranscription := false;
    }

    /** From `Process(...).start()` to the end of the `try` block once the checks have passed. */
    method RunWorker(hasOutputCallback: bool, hasProgressCallback: bool, early: Exit, schedule: seq<Tick>)
      returns (outcome: Outcome, ghost worker: Option<Proc>)
      requires Finishes(early, cancelTranscription, schedule)
      modifies this
      ensures var cancel0 := old(cancelTranscription);
        && outcome == (if CancelTaken(early, cancel0, schedule) then Cancelled
                       else ResultOutcome(Queued(FinalExit(early, cancel0, schedule))))
        && progressReported == old(progressReported)
             + (if hasProgressCallback then Reported(early, cancel0, schedule) else [])
        && worker.Some? && !worker.value.alive
        && (worker.value.terminated <==> outcome.Cancelled? && FinalExit(early, cancel0, schedule).StillRunning?)
        && (transcriptionProcess == None || transcriptionProcess == Some(Proc(false, false)))
      ensures modelPath == old(modelPath) && defaultSettings == old(defaultSettings)
      ensures outputsReported == old(outputsReported)
                                 + (if hasOutputCallback && outcome.Completed? then [outcome.path] else [])
    {
      transcriptionProcess := Some(Proc(true, false));
      if early.Exited? {
        // gone before the first `is_alive()`: the loop, and its cancel check, never run
        transcriptionProcess := Some(Proc(false, false));
        worker := transcriptionProcess;
        outcome := ProcessResult(Queued(early), hasOutputCallback);
      } else {
        var cancelled, resultQueue;
        cancelled, resultQueue, worker := PollLoop(hasProgressCallback, schedule);
        if cancelled {
          outcome := Cancelled;
        } else {
          outcome := ProcessResult(resultQueue, hasOutputCallback);
        }
      }
    }

    /**
     * The `while ... is_alive()` loop with a worker that is alive at the first
     * check: it ends in the last round, cancelled exactly when the flag is
     * seen there, and otherwise with the result the worker left queued.
     */
    method PollLoop(hasProgressCallback: bool, schedule: seq<Tick>)
      returns (cancelled: bool, resultQueue: seq<WorkerResult>, ghost worker: Option<Proc>)
      requires Ends(cancelTranscription, schedule)
      requires transcriptionProcess == Some(Proc(true, false))
      modifies this
      ensures var cancel0, n := old(cancelTranscription), LastRound(old(cancelTranscription), schedule);
        && (cancelled <==> CancelSeen(cancel0, schedule))
        && (!cancelled ==> transcriptionProcess == Some(Proc(false, false)) && resultQueue == Queued(schedule[n].exit))
        && (cancelled ==> transcriptionProcess == None || transcriptionProcess == Some(Proc(false, false)))
        && worker.Some? && !worker.value.alive
        && (worker.value.terminated <==> cancelled && schedule[n].exit.StillRunning?)
        && progressReported == old(progressReported) + (if hasProgressCallback then Emitted(schedule[..n]) else [])
      ensures modelPath == old(modelPath) && defaultSettings == old(defaultSettings)
      ensures outputsReported == old(outputsReported)
    {
      ghost var cancel0 := cancelTranscription;
      ghost var n := LastRound(cancel0, schedule);
      var progressQueue: seq<Progress> := [];
      resultQueue := [];
      cancelled := false;
      worker := transcriptionProcess;
      var i := 0;
      while transcriptionProcess.Some? && transcriptionProcess.value.alive
        invariant 0 <= i <= n + 1
        invariant modelPath == old(modelPath) && defaultSettings == old(defaultSettings)
        invariant outputsReported == old(outputsReported)
        invariant i <= n ==>
          && transcriptionProcess == Some(Proc(true, false)) && worker == transcriptionProcess
          && !cancelled && resultQueue == []
          && cancelTranscription == (i == 0 && cancel0)
          && progressQueue == (if i == 0 then [] else schedule[i - 1].emitted)
          && progressReported == old(progressReported)
               + (if hasProgressCallback then Emitted(schedule[..if i == 0 then 0 else i - 1]) else [])
        invariant i == n + 1 ==>
          && (cancelled <==> CancelSeen(cancel0, schedule))
          && (!cancelled ==> transcriptionProcess == Some(Proc(false, false)) && resultQueue == Queued(schedule[n].exit))
          && (cancelled ==> transcriptionProcess == None || transcriptionProcess == Some(Proc(false, false)))
          && worker.Some? && !worker.value.alive
          && (worker.value.terminated <==> cancelled && schedule[n].exit.StillRunning?)
          && progressReported == old(progressReported) + (if hasProgressCallback then Emitted(schedule[..n]) else [])
        decreases n + 1 - i
      {
        ghost var reportedBefore := progressReported;
        DrainProgress(progressQueue, hasProgressCallback);
        DrainStep(old(progressReported), reportedBefore, progressReported, progressQueue, schedule, i, hasProgressCallback);
        progressQueue := [];
        // time.sleep(0.1): the environment acts
        var t := schedule[i];
        progressQueue := progressQueue + t.emitted;
        if t.exit.Exited? {
          resultQueue := resultQueue + Queued(t.exit);
          transcriptionProcess := Some(Proc(false, false));
          worker := transcriptionProcess;
        }
        if t.cancel {
          cancelTranscription := true;
        }
        if i < n {
          StopsOnlyAtLast(cancel0, schedule, i);
        }
        if cancelTranscription {
          if transcriptionProcess.Some? && transcriptionProcess.value.alive {
            worker := Some(Proc(false, true));
            transcriptionProcess := None;
          }
          cancelTranscription := false;
          cancelled := true;
        }
        i := i + 1;
      }
    }

    /** The `if not result_queue.empty()` block: the first result decides, and a path goes to the output callback. */
    method ProcessResult(resultQueue: seq<WorkerResult>, hasOutputCallback: bool) returns (outcome: Outcome)
      modifies this
      ensures outcome == ResultOutcome(resultQueue)
      ensures outputsReported == old(outputsReported)
                                 + (if hasOutputCallback && outcome.Completed? then [outcome.path] else [])
      ensures modelPath == old(modelPath) && defaultSettings == old(defaultSettings)
      ensures transcriptionProcess == old(transcriptionProcess) && progressReported == old(progressReported)
    {
      if resultQueue != [] {
        var result := resultQueue[0];
        match result
        case WorkerError(m) =>
          outcome := Failed(m);
        case OutputPath(p) =>
          if hasOutputCallback {
            outputsReported := outputsReported + [p];
          }
          outcome := Completed(p);
      } else {
        outcome := Failed(NoResultMessage);
      }
    }
  }

  /** The rounds before the last one neither see a cancel nor lose the worker. */
  lemma StopsOnlyAtLast(cancel0: bool, ticks: seq<Tick>, i: nat)
    requires Ends(cancel0, ticks)
    requires i < LastRound(cancel0, ticks)
    ensures !cancel0 && !ticks[i].cancel && ticks[i].exit.StillRunning?
  {
  }

  /** After the drain of round `i`, the callback has seen what was queued during the first `i` sleeps. */
  lemma DrainStep(r0: seq<Progress>, mid: seq<Progress>, r1: seq<Progress>, q: seq<Progress>,
                  ticks: seq<Tick>, i: nat, has: bool)
    requires i <= |ticks|
    requires mid == r0 + (if has then Emitted(ticks[..if i == 0 then 0 else i - 1]) else [])
    requires q == (if i == 0 then [] else ticks[i - 1].emitted)
    requires r1 == mid + (if has then q else [])
    ensures r1 == r0 + (if has then Emitted(ticks[..i]) else [])
  {
    if i > 0 {
      EmittedSnoc(ticks, i);
    }
  }

  /** Draining in round `i` hands over what was queued during the previous sleep. */
  lemma EmittedSnoc(ticks: seq<Tick>, i: nat)
    requires 0 < i <= |ticks|
    ensures Emitted(ticks[..i]) == Emitted(ticks[..i - 1]) + ticks[i - 1].emitted
  {
    assert ticks[..i][..i - 1] == ticks[..i - 1];
  }

  /**
   * Exactly one way out once the worker has started: cancelled exactly when
   * the loop ran and saw the flag in its last round; otherwise the worker's
   * result decides, and the call returns a path exactly when the worker
   * reported that path.
   */
  lemma OutcomeOfLaunch(modelPath: Option<string>, filepath: string, fileExists: bool, arg: SettingsArg,
                        defaults: Options, cancel0: bool, early: Exit, ticks: seq<Tick>)
    requires Launches(modelPath, fileExists, arg, defaults) && Finishes(early, cancel0, ticks)
    ensures var e, last := Expected(modelPath, filepath, fileExists, arg, defaults, cancel0, early, ticks),
                          FinalExit(early, cancel0, ticks);
      && (e == Cancelled <==> CancelTaken(early, cancel0, ticks))
      && (forall p :: e == Completed(p) <==> !CancelTaken(early, cancel0, ticks) && last == Exited(Some(OutputPath(p))))
      && (e == Failed(NoResultMessage) <==>
            !CancelTaken(early, cancel0, ticks)
            && (last == Exited(None) || last == Exited(Some(WorkerError(NoResultMessage)))))
      && !e.NotFound?
  {
    if !CancelTaken(early, cancel0, ticks) && early.StillRunning? {
      assert ticks[LastRound(cancel0, ticks)].exit.Exited?;
    }
  }

  /**
   * A worker that has exited before the loop first looks at it is judged by
   * its result alone: a cancel flag set beforehand is never read, and the
   * schedule does not matter.
   */
  lemma EarlyExitIgnoresCancel(modelPath: Option<string>, filepath: string, fileExists: bool, arg: SettingsArg,
                               defaults: Options, early: Exit, ticks: seq<Tick>)
    requires Launches(modelPath, fileExists, arg, defaults) && early.Exited?
    ensures Expected(modelPath, filepath, fileExists, arg, defaults, true, early, ticks)
            == Expected(modelPath, filepath, fileExists, arg, defaults, false, early, [])
            == ResultOutcome(Queued(early))
    ensures early.result.Some? && early.result.value.OutputPath? ==>
            Expected(modelPath, filepath, fileExists, arg, defaults, true, early, ticks)
            == Completed(early.result.value.path)
  {
  }

  /** Before the worker starts, the first failing check decides: the model path, then the file, then the settings. */
  lemma OutcomeBeforeLaunch(modelPath: Option<string>, filepath: string, fileExists: bool, arg: SettingsArg,
                            defaults: Options, cancel0: bool, early: Exit, ticks: seq<Tick>)
    requires !Launches(modelPath, fileExists, arg, defaults)
    ensures var e := Expected(modelPath, filepath, fileExists, arg, defaults, cancel0, early, ticks);
      && (!ModelSet(modelPath) ==> e == Failed(NoModelMessage))
      && (ModelSet(modelPath) && !fileExists ==> e == NotFound(filepath))
      && (ModelSet(modelPath) && fileExists ==> e == Failed(BadSettingsMessage))
  {
  }

  /** A cancel requested during the sleep in which the worker finishes wins: its result is thrown away. */
  lemma CancelBeatsResult(modelPath: Option<string>, filepath: string, fileExists: bool, arg: SettingsArg,
                          defaults: Options, ticks: seq<Tick>, i: nat, path: string)
    requires Launches(modelPath, fileExists, arg, defaults)
    requires i < |ticks| && ticks[i] == Tick(ticks[i].emitted, Exited(Some(OutputPath(path))), true)
    requires forall j :: 0 <= j < i ==> !Stops(ticks[j])
    ensures Ends(false, ticks) && LastRound(false, ticks) == i
    ensures Expected(modelPath, filepath, fileExists, arg, defaults, false, StillRunning, ticks) == Cancelled
  {
    assert Stops(ticks[i]);
    FirstStopAt(ticks, i);
  }

  /** The first stopping sleep is the one every earlier sleep lets pass. */
  lemma FirstStopAt(ticks: seq<Tick>, i: nat)
    requires i < |ticks| && Stops(ticks[i])
    requires forall j :: 0 <= j < i ==> !Stops(ticks[j])
    ensures HasStop(ticks) && FirstStop(ticks) == i
  {
    assert HasStop(ticks);
  }

  /**
   * What the environment does after the loop has ended is never seen: two
   * schedules that agree up to the last round give the same outcome and the
   * same reported progress.
   */
  lemma LaterSleepsIgnored(modelPath: Option<string>, filepath: string, fileExists: bool, arg: SettingsArg,
                           defaults: Options, cancel0: bool, early: Exit, ticks1: seq<Tick>, ticks2: seq<Tick>)
    requires Ends(cancel0, ticks1)
    requires LastRound(cancel0, ticks1) < |ticks2|
    requires ticks1[..LastRound(cancel0, ticks1) + 1] == ticks2[..LastRound(cancel0, ticks1) + 1]
    ensures Ends(cancel0, ticks2) && LastRound(cancel0, ticks2) == LastRound(cancel0, ticks1)
    ensures Expected(modelPath, filepath, fileExists, arg, defaults, cancel0, early, ticks2)
            == Expected(modelPath, filepath, fileExists, arg, defaults, cancel0, early, ticks1)
    ensures Reported(early, cancel0, ticks2) == Reported(early, cancel0, ticks1)
  {
    var n := LastRound(cancel0, ticks1);
    assert ticks2[n] == ticks2[..n + 1][n] == ticks1[..n + 1][n] == ticks1[n];
    if !(cancel0 && ticks1 != []) {
      forall j | 0 <= j < n ensures !Stops(ticks2[j]) {
        assert ticks2[j] == ticks2[..n + 1][j] == ticks1[..n + 1][j] == ticks1[j];
      }
      FirstStopAt(ticks2, n);
    }
    assert ticks2[..n] == ticks2[..n + 1][..n] == ticks1[..n + 1][..n] == ticks1[..n];
  }

  /** The progress reported is a prefix of all the progress the worker queued: nothing is reordered or invented. */
  lemma {:induction false} ReportedIsPrefix(ticks: seq<Tick>, n: nat)
    requires n <= |ticks|
    ensures Emitted(ticks[..n]) <= Emitted(ticks)
    decreases |ticks| - n
  {
    if n < |ticks| {
      ReportedIsPrefix(ticks, n + 1);
      EmittedSnoc(ticks, n + 1);
    } else {
      assert ticks[..n] == ticks;
    }
  }

  /** What reaches the worker: the given object's or dictionary's fields, else the defaults; other truthy values raise. */
  lemma SettingsSent(arg: SettingsArg, defaults: Options)
    ensures arg.SettingsObject? ==> PrepareSettings(arg, defaults) == Some(ToDict(arg.o))
    ensures arg.SettingsDict? && arg.d != map[] ==> PrepareSettings(arg, defaults) == Some(arg.d)
    ensures PrepareSettings(arg, defaults).None? <==> arg.OtherValue? && arg.truthy
    ensures arg.NoSettings? || (arg.SettingsDict? && arg.d == map[]) || (arg.OtherValue? && !arg.truthy) ==>
      PrepareSettings(arg, defaults) == Some(ToDict(defaults))
  {
  }
}
