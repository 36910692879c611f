/**
  Sequences of orchestrator operations, as the UI thread issues them, and the
  properties that hold of every such sequence.
*/
module OrchestratorTraces {
  import opened Wrappers
  import opened Orchestrator

  /** One call into DrawingBotV3 from the UI (or, for SetActiveOp,
      StageFinishedOp and ImageLoadedOp, from the task monitor, the running
      task and the image loader). */
  datatype Op =
    | StartPlottingOp
    | StopPlottingOp
    | ResetPlottingOp
    | OpenImageOp(file: File, internal: bool)
    | SetActiveOp(task: Option<PlotTask>)
    | CreateExportOp(plotting: Option<PlotTask>, filter: Option<GeometryFilter>,
                     portName: Option<string>, separatePens: bool, forceBypassOptimisation: bool)
    | PauseExportOp
    | UpdatePenDistributionOp(activeFinished: bool)
    | StageFinishedOp(stage: TaskStage, geometryCount: nat, vertexCount: nat)
    | ChangePathFinderModuleOp(pfm: Pfm, distribution: DistributionType)
    | ChangeColourSplitterOp(splitter: ColourSplitter)
    | ImageLoadedOp(image: FilteredImage)

  /** changePathFinderModule: select the module and remember its distribution
      type, to be applied by the next start of plotting. */
  function ChangePathFinderModule(s: State, pfm: Pfm, distribution: DistributionType): (r: State)
    ensures r.pfm == Some(pfm) && r.updateDistributionType == Some(distribution)
    ensures r == s.(pfm := r.pfm, updateDistributionType := r.updateDistributionType)
  {
    s.(pfm := Some(pfm), updateDistributionType := Some(distribution))
  }

  /** A new colour splitter, chosen in the colour-separation box (bound to
      the field both ways) or carried by a splitter's drawing set. It is read
      by the next start of plotting. */
  function ChangeColourSplitter(s: State, splitter: ColourSplitter): (r: State)
    ensures r.colourSplitter == Some(splitter)
    ensures r == s.(colourSplitter := r.colourSplitter)
  {
    s.(colourSplitter := Some(splitter))
  }

  /** The queued loader finishing: its image becomes the open image. The
      loader itself is not part of this model, so this is the only effect
      given to it. */
  function ImageLoaded(s: State, image: FilteredImage): (r: State)
    ensures r.openImage == Some(image)
    ensures r == s.(openImage := r.openImage)
  {
    s.(openImage := Some(image))
  }

  function Apply(s: State, op: Op): Step
  {
    match op
    case StartPlottingOp => StartPlotting(s)
    case StopPlottingOp => StopPlotting(s)
    case ResetPlottingOp => ResetPlotting(s)
    case OpenImageOp(file, internal) => OpenImage(s, file, internal)
    case SetActiveOp(task) => SetActivePlottingTask(s, task)
    case CreateExportOp(p, f, port, sep, bypass) =>
      var e := CreateExportTask(s, p, f, port, sep, bypass);
      Step(e.state, e.effects)
    case PauseExportOp => PauseExportTask(s)
    case UpdatePenDistributionOp(finished) => UpdatePenDistribution(s, finished)
    case StageFinishedOp(stage, g, v) => OnPlottingTaskStageFinished(s, stage, g, v)
    case ChangePathFinderModuleOp(pfm, d) => Step(ChangePathFinderModule(s, pfm, d), [])
    case ChangeColourSplitterOp(splitter) => Step(ChangeColourSplitter(s, splitter), [])
    case ImageLoadedOp(image) => Step(ImageLoaded(s, image), [])
  }

  /** The state after a sequence of operations and the effects it produced, in order. */
  function Run(s: State, ops: seq<Op>): Step
    decreases |ops|
  {
    if |ops| == 0 then Step(s, [])
    else
      var first := Apply(s, ops[0]);
      var rest := Run(first.state, ops[1..]);
      Step(rest.state, first.effects + rest.effects)
  }

  // ---------------------------------------------------------------------------
  // Reading traces

  /** The export tasks among some queued work, in order. */
  function ExportsQueued(ws: seq<Work>): seq<ExportTask>
  {
    if |ws| == 0 then []
    else (if ws[0].ExportWork? then [ws[0].job] else []) + ExportsQueued(ws[1..])
  }

  /** How many deferred distribution-type updates a log holds. */
  function DistributionUpdates(effects: seq<Effect>): nat
  {
    if |effects| == 0 then 0
    else (if effects[0].SetDistributionType? then 1 else 0) + DistributionUpdates(effects[1..])
  }

  function PathFinderChanges(ops: seq<Op>): nat
  {
    if |ops| == 0 then 0
    else (if ops[0].ChangePathFinderModuleOp? then 1 else 0) + PathFinderChanges(ops[1..])
  }

  function Resets(ops: seq<Op>): nat
  {
    if |ops| == 0 then 0
    else (if ops[0].ResetPlottingOp? then 1 else 0) + Resets(ops[1..])
  }

  function Pending(s: State): nat
  {
    if s.updateDistributionType.Some? then 1 else 0
  }

  /** `x` is a tail of `y`. */
  ghost predicate IsSuffix<T>(x: seq<T>, y: seq<T>)
  {
    |x| <= |y| && forall i :: 0 <= i < |x| ==> x[i] == y[|y| - |x| + i]
  }

  lemma {:induction false} ExportsQueuedAppend(a: seq<Work>, b: seq<Work>)
    ensures ExportsQueued(a + b) == ExportsQueued(a) + ExportsQueued(b)
    decreases |a|
  {
    if |a| == 0 {
      assert a + b == b;
    } else {
      var head := if a[0].ExportWork? then [a[0].job] else [];
      assert (a + b)[0] == a[0];
      assert (a + b)[1..] == a[1..] + b;
      ExportsQueuedAppend(a[1..], b);
      calc {
        ExportsQueued(a + b);
        head + ExportsQueued(a[1..] + b);
        head + (ExportsQueued(a[1..]) + ExportsQueued(b));
        (head + ExportsQueued(a[1..])) + ExportsQueued(b);
        ExportsQueued(a) + ExportsQueued(b);
      }
    }
  }

  lemma {:induction false} DistributionUpdatesAppend(a: seq<Effect>, b: seq<Effect>)
    ensures DistributionUpdates(a + b) == DistributionUpdates(a) + DistributionUpdates(b)
    decreases |a|
  {
    if |a| == 0 {
      assert a + b == b;
    } else {
      assert (a + b)[0] == a[0];
      assert (a + b)[1..] == a[1..] + b;
      DistributionUpdatesAppend(a[1..], b);
    }
  }

  lemma {:induction false} NoDistributionUpdates(effects: seq<Effect>)
    requires forall i :: 0 <= i < |effects| ==> !effects[i].SetDistributionType?
    ensures DistributionUpdates(effects) == 0
    decreases |effects|
  {
    if |effects| > 0 {
      NoDistributionUpdates(effects[1..]);
    }
  }

  lemma {:induction false} NoQueuedWork(effects: seq<Effect>)
    requires forall i :: 0 <= i < |effects| ==> !effects[i].Queue?
    ensures QueuedWork(effects) == []
    decreases |effects|
  {
    if |effects| > 0 {
      NoQueuedWork(effects[1..]);
    }
  }

  lemma SuffixThroughAppend<T>(x: seq<T>, a: seq<T>, b: seq<T>, c: seq<T>)
    requires IsSuffix(x, a + c)
    requires IsSuffix(a, b)
    ensures IsSuffix(x, b + c)
  {
  }

  lemma SuffixRegroup<T>(x: seq<T>, a: seq<T>, b: seq<T>, c: seq<T>, bc: seq<T>)
    requires IsSuffix(x, (a + b) + c)
    requires bc == b + c
    ensures IsSuffix(x, a + bc)
  {
  }

  /** The same regrouping for an exact append. */
  lemma AppendRegroup<T>(x: seq<T>, a: seq<T>, b: seq<T>, c: seq<T>, bc: seq<T>)
    requires x == (a + b) + c
    requires bc == b + c
    ensures x == a + bc
  {
  }

  // ---------------------------------------------------------------------------
  // One step

  /** What every operation does to the stored export task and to the export
      work it queues. */
  lemma ApplyExportFacts(s: State, op: Op)
    ensures var r := Apply(s, op);
            s.exportTask.Some? ==>
              r.state.exportTask == s.exportTask && ExportsQueued(QueuedWork(r.effects)) == []
    ensures var r := Apply(s, op);
            s.exportTask.None? ==>
              || (r.state.exportTask.None? && ExportsQueued(QueuedWork(r.effects)) == [])
              || (r.state.exportTask.Some? && ExportsQueued(QueuedWork(r.effects)) == [r.state.exportTask.value])
  {
    var r := Apply(s, op);
    if op.StartPlottingOp? {
      var q := QueuedWork(r.effects);
      if |q| == 1 {
        assert q == [q[0]];
      } else {
        assert q == [];
      }
    } else if op.OpenImageOp? {
      assert ExportsQueued([LoadWork(r.state.loadingImage.value)]) == [];
    } else if op.CreateExportOp? {
      if s.exportTask.Some? {
        NoQueuedWork(r.effects);
      } else {
        assert QueuedWork(r.effects) == [ExportWork(r.state.exportTask.value)];
      }
    } else {
      QuietOpExportFacts(s, op);
    }
  }

  /** The operations that neither queue work nor touch the export task. */
  lemma QuietOpExportFacts(s: State, op: Op)
    requires !op.StartPlottingOp? && !op.OpenImageOp? && !op.CreateExportOp?
    ensures QueuedWork(Apply(s, op).effects) == []
    ensures Apply(s, op).state.exportTask == s.exportTask
  {
    if !op.ResetPlottingOp? && !op.StopPlottingOp? {
      NoQueuedWork(Apply(s, op).effects);
    }
  }

  /** startPlotting applies the pending distribution type at most once, and
      only by consuming it. */
  lemma StartPlottingDistributionFacts(s: State)
    ensures DistributionUpdates(StartPlotting(s).effects) + Pending(StartPlotting(s).state) <= Pending(s)
  {
    var r := StartPlotting(s);
    var cancels := if s.activeTask.Some? then [Cancel(s.activeTask.value)] else [];
    if s.openImage.Some? {
      var init := InitPlottingTask(s, s.pfm, s.penSet, s.openImage.value, s.openFile, s.colourSplitter);
      var queued := [Queue(PlotWork(init.task))];
      assert r.effects == cancels + queued + init.deferred;
      DistributionUpdatesAppend(cancels, queued);
      DistributionUpdatesAppend(cancels + queued, init.deferred);
      NoDistributionUpdates(cancels + queued);
      if init.deferred != [] {
        assert DistributionUpdates(init.deferred) == 1;
      }
    } else {
      NoDistributionUpdates(r.effects);
    }
  }

  /** The operations that neither choose nor apply a distribution type. */
  lemma QuietOpDistributionFacts(s: State, op: Op)
    requires !op.StartPlottingOp? && !op.ChangePathFinderModuleOp?
    ensures DistributionUpdates(Apply(s, op).effects) == 0
    ensures Apply(s, op).state.updateDistributionType == s.updateDistributionType
  {
    match op
    case ResetPlottingOp => ResetDistributionFacts(s);
    case OpenImageOp(file, internal) => OpenImageDistributionFacts(s, file, internal);
    case SetActiveOp(_) =>
    case ChangeColourSplitterOp(_) =>
    case ImageLoadedOp(_) =>
    case _ => NoDistributionUpdates(Apply(s, op).effects);
  }

  lemma ResetDistributionFacts(s: State)
    ensures DistributionUpdates(ResetPlotting(s).effects) == 0
  {
    NoDistributionUpdates(ResetPlotting(s).effects);
  }

  lemma OpenImageDistributionFacts(s: State, file: File, internal: bool)
    ensures DistributionUpdates(OpenImage(s, file, internal).effects) == 0
  {
    NoDistributionUpdates(OpenImage(s, file, internal).effects);
  }

  /** A distribution-type update is only emitted by consuming a pending one,
      and only changing the path finder makes one pending. */
  lemma ApplyDistributionFacts(s: State, op: Op)
    ensures DistributionUpdates(Apply(s, op).effects) + Pending(Apply(s, op).state)
            <= Pending(s) + (if op.ChangePathFinderModuleOp? then 1 else 0)
  {
    if op.StartPlottingOp? {
      StartPlottingDistributionFacts(s);
    } else if !op.ChangePathFinderModuleOp? {
      QuietOpDistributionFacts(s, op);
    }
  }

  /** Only a reset replaces the worker; every other operation appends exactly
      the work it queues to the current worker. */
  lemma ApplyWorkerFacts(s: State, op: Op)
    ensures op.ResetPlottingOp? ==>
              Apply(s, op).state.submitted == [] && Apply(s, op).state.generation == s.generation + 1
    ensures !op.ResetPlottingOp? ==>
              && Apply(s, op).state.submitted == s.submitted + QueuedWork(Apply(s, op).effects)
              && Apply(s, op).state.generation == s.generation
  {
    var r := Apply(s, op);
    match op
    case StartPlottingOp =>
    case StopPlottingOp =>
    case ResetPlottingOp =>
    case OpenImageOp(file, internal) =>
    case SetActiveOp(task) =>
      NoQueuedWork(r.effects);
    case CreateExportOp(p, f, port, sep, bypass) =>
      if s.exportTask.Some? {
        NoQueuedWork(r.effects);
      } else {
        assert QueuedWork(r.effects) == [ExportWork(r.state.exportTask.value)];
      }
    case PauseExportOp =>
      NoQueuedWork(r.effects);
    case UpdatePenDistributionOp(finished) =>
      NoQueuedWork(r.effects);
    case StageFinishedOp(stage, g, v) =>
      NoQueuedWork(r.effects);
    case ChangePathFinderModuleOp(pfm, d) =>
    case ChangeColourSplitterOp(splitter) =>
    case ImageLoadedOp(image) =>
  }

  // ---------------------------------------------------------------------------
  // Whole traces

  /** Once an export task is stored, no operation ever replaces or clears it. */
  lemma {:induction false} ExportTaskNeverCleared(s: State, ops: seq<Op>)
    requires s.exportTask.Some?
    ensures Run(s, ops).state.exportTask == s.exportTask
    decreases |ops|
  {
    if |ops| > 0 {
      ApplyExportFacts(s, ops[0]);
      ExportTaskNeverCleared(Apply(s, ops[0]).state, ops[1..]);
    }
  }

  /** Over any trace at most one export task is ever queued (none if one was
      already stored), and the one queued is the one that stays stored: every
      later export request resumes it. */
  lemma {:induction false} ExportQueuedAtMostOnce(s: State, ops: seq<Op>)
    ensures var r := Run(s, ops);
            |ExportsQueued(QueuedWork(r.effects))| <= (if s.exportTask.None? then 1 else 0)
    ensures var r := Run(s, ops);
            forall e :: e in ExportsQueued(QueuedWork(r.effects)) ==> r.state.exportTask == Some(e)
    decreases |ops|
  {
    if |ops| > 0 {
      var first := Apply(s, ops[0]);
      var rest := Run(first.state, ops[1..]);
      ApplyExportFacts(s, ops[0]);
      ExportQueuedAtMostOnce(first.state, ops[1..]);
      QueuedWorkAppend(first.effects, rest.effects);
      ExportsQueuedAppend(QueuedWork(first.effects), QueuedWork(rest.effects));
      if first.state.exportTask.Some? {
        ExportTaskNeverCleared(first.state, ops[1..]);
      }
    }
  }

  /** The distribution type chosen by a path-finder change is applied at most
      once: a trace emits no more updates than it has path-finder changes,
      plus one for an update already pending at its start. */
  lemma {:induction false} DistributionUpdateOneShot(s: State, ops: seq<Op>)
    ensures DistributionUpdates(Run(s, ops).effects) + Pending(Run(s, ops).state)
            <= Pending(s) + PathFinderChanges(ops)
    decreases |ops|
  {
    if |ops| > 0 {
      var first := Apply(s, ops[0]);
      var rest := Run(first.state, ops[1..]);
      ApplyDistributionFacts(s, ops[0]);
      DistributionUpdateOneShot(first.state, ops[1..]);
      DistributionUpdatesAppend(first.effects, rest.effects);
    }
  }

  /** The worker's generation counts the resets. */
  lemma {:induction false} GenerationCountsResets(s: State, ops: seq<Op>)
    ensures Run(s, ops).state.generation == s.generation + Resets(ops)
    decreases |ops|
  {
    if |ops| > 0 {
      ApplyWorkerFacts(s, ops[0]);
      GenerationCountsResets(Apply(s, ops[0]).state, ops[1..]);
    }
  }

  /** No operation of the orchestration assigns the rendered task. */
  lemma ApplyKeepsRendered(s: State, op: Op)
    ensures Apply(s, op).state.renderedTask == s.renderedTask
  {
    match op
    case StartPlottingOp =>
    case StopPlottingOp =>
    case ResetPlottingOp =>
    case OpenImageOp(file, internal) =>
    case SetActiveOp(task) =>
    case CreateExportOp(p, f, port, sep, bypass) =>
    case PauseExportOp =>
    case UpdatePenDistributionOp(activeFinished) =>
    case StageFinishedOp(stage, g, v) =>
    case ChangePathFinderModuleOp(pfm, d) =>
    case ChangeColourSplitterOp(splitter) =>
    case ImageLoadedOp(image) =>
  }

  lemma {:induction false} RenderedTaskNeverSet(s: State, ops: seq<Op>)
    ensures Run(s, ops).state.renderedTask == s.renderedTask
    decreases |ops|
  {
    if |ops| > 0 {
      ApplyKeepsRendered(s, ops[0]);
      RenderedTaskNeverSet(Apply(s, ops[0]).state, ops[1..]);
    }
  }

  /** From the initial state, the task getRenderedTask hands to the viewport
      and the exporters is always the active plotting task. */
  lemma RenderedIsActive(ops: seq<Op>)
    ensures GetRenderedTask(Run(Initial(), ops).state) == Run(Initial(), ops).state.activeTask
  {
    RenderedTaskNeverSet(Initial(), ops);
  }

  /** One operation leaves the worker holding a tail of what it held plus
      what the operation queued. */
  lemma ApplySubmittedSuffix(s: State, op: Op)
    ensures IsSuffix(Apply(s, op).state.submitted, s.submitted + QueuedWork(Apply(s, op).effects))
  {
    ApplyWorkerFacts(s, op);
  }

  /** The work queued by a non-empty trace: that of its first operation,
      then that of the rest. */
  lemma RunQueuedSplit(s: State, ops: seq<Op>)
    requires |ops| > 0
    ensures QueuedWork(Run(s, ops).effects)
            == QueuedWork(Apply(s, ops[0]).effects) + QueuedWork(Run(Apply(s, ops[0]).state, ops[1..]).effects)
    ensures Run(s, ops).state == Run(Apply(s, ops[0]).state, ops[1..]).state
  {
    QueuedWorkAppend(Apply(s, ops[0]).effects, Run(Apply(s, ops[0]).state, ops[1..]).effects);
  }

  /** The work submitted to the current worker is a tail of all the work
      queued over a trace: a reset starts the worker empty. */
  lemma {:induction false} WorkerHoldsQueuedTail(s: State, ops: seq<Op>)
    ensures IsSuffix(Run(s, ops).state.submitted, s.submitted + QueuedWork(Run(s, ops).effects))
    decreases |ops|
  {
    if |ops| == 0 {
      assert s.submitted + [] == s.submitted;
    } else {
      var first := Apply(s, ops[0]);
      var rest := Run(first.state, ops[1..]);
      WorkerHoldsQueuedTail(first.state, ops[1..]);
      ApplySubmittedSuffix(s, ops[0]);
      RunQueuedSplit(s, ops);
      SuffixThroughAppend(rest.state.submitted, first.state.submitted,
                          s.submitted + QueuedWork(first.effects), QueuedWork(rest.effects));
      SuffixRegroup(rest.state.submitted, s.submitted, QueuedWork(first.effects),
                    QueuedWork(rest.effects), QueuedWork(Run(s, ops).effects));
    }
  }

  /** Without a reset the worker holds exactly the work queued over the trace. */
  lemma {:induction false} WorkerHoldsAllQueued(s: State, ops: seq<Op>)
    requires Resets(ops) == 0
    ensures Run(s, ops).state.submitted == s.submitted + QueuedWork(Run(s, ops).effects)
    decreases |ops|
  {
    if |ops| == 0 {
      assert s.submitted + [] == s.submitted;
    } else {
      var first := Apply(s, ops[0]);
      var rest := Run(first.state, ops[1..]);
      assert !ops[0].ResetPlottingOp? && Resets(ops[1..]) == 0;
      ApplyWorkerFacts(s, ops[0]);
      WorkerHoldsAllQueued(first.state, ops[1..]);
      RunQueuedSplit(s, ops);
      AppendRegroup(rest.state.submitted, s.submitted, QueuedWork(first.effects),
                    QueuedWork(rest.effects), QueuedWork(Run(s, ops).effects));
    }
  }


  // ---------------------------------------------------------------------------
  // Short scenarios

  /** A second export request returns the very instance the first one created
      or resumed, resumes it, queues nothing and ignores its own arguments. */
  lemma SecondExportRequestResumes(s: State,
                                   p1: Option<PlotTask>, f1: Option<GeometryFilter>, port1: Option<string>, sep1: bool, b1: bool,
                                   p2: Option<PlotTask>, f2: Option<GeometryFilter>, port2: Option<string>, sep2: bool, b2: bool)
    ensures var first := CreateExportTask(s, p1, f1, port1, sep1, b1);
            var second := CreateExportTask(first.state, p2, f2, port2, sep2, b2);
            && second.job == first.job
            && second.effects == [Resume(first.job)]
            && second.state == first.state
            && (s.exportTask.None? ==> first.effects == [Queue(ExportWork(first.job))])
  {
  }

  /** Starting twice before the monitor activates the first queued task queues
      two distinct tasks, in order. */
  lemma StartTwiceQueuesTwo(s: State)
    requires s.openImage.Some?
    ensures var a := StartPlotting(s);
            var b := StartPlotting(a.state);
            var q := QueuedWork(a.effects + b.effects);
            && |q| == 2 && q[0].PlotWork? && q[1].PlotWork?
            && q[0].task.id == s.nextHandle < q[1].task.id
  {
    var a := StartPlotting(s);
    var b := StartPlotting(a.state);
    QueuedWorkAppend(a.effects, b.effects);
  }

  /** The second of two starts cancels again only the task that was active
      before the first: the task the first start queued is never cancelled. */
  lemma StartTwiceCancelsOnlyPrevious(s: State)
    requires s.activeTask.Some? ==> s.activeTask.value.id < s.nextHandle
    requires s.openImage.Some?
    ensures var a := StartPlotting(s);
            var b := StartPlotting(a.state);
            var c := CancelledTasks(a.effects + b.effects);
            && c == (if s.activeTask.Some? then [s.activeTask.value, s.activeTask.value] else [])
            && QueuedWork(a.effects)[0].task !in c
  {
    var a := StartPlotting(s);
    var b := StartPlotting(a.state);
    CancelledTasksAppend(a.effects, b.effects);
    if s.activeTask.Some? {
      assert QueuedWork(a.effects)[0].task != s.activeTask.value;
    }
  }

  /** After a reset the fresh worker takes a new plotting task at once, and
      the start cancels nothing because the reset cleared the active task. */
  lemma ResetThenStart(s: State)
    ensures var a := ResetPlotting(s);
            var b := StartPlotting(a.state);
            && CancelledTasks(a.effects + b.effects) == []
            && b.state.submitted == QueuedWork(b.effects)
            && b.state.generation == s.generation + 1
            && (s.openImage.Some? ==> |b.state.submitted| == 1 && b.state.submitted[0].PlotWork?)
  {
    var a := ResetPlotting(s);
    var b := StartPlotting(a.state);
    CancelledTasksAppend(a.effects, b.effects);
    assert [] + QueuedWork(b.effects) == QueuedWork(b.effects);
  }

  /** Opening a file, letting its loader finish and pressing start plots the
      loaded image, tagged with the opened file. Before the loader finishes,
      starting over an active task queues nothing. */
  lemma LoadedImageIsPlotted(s: State, file: File, internal: bool, image: FilteredImage)
    ensures var queued := QueuedWork(StartPlotting(ImageLoaded(OpenImage(s, file, internal).state, image)).effects);
            && |queued| == 1
            && queued[0].PlotWork?
            && queued[0].task.source == image
            && queued[0].task.file == Some(file)
    ensures s.activeTask.Some? ==>
              QueuedWork(StartPlotting(OpenImage(s, file, internal).state).effects) == []
  {
  }

  /** The splitter chosen last decides what the next start builds: a plain
      task for DEFAULT, otherwise a split task carrying that splitter. */
  lemma SplitterChoosesTaskKind(s: State, splitter: ColourSplitter)
    requires s.openImage.Some?
    ensures var queued := QueuedWork(StartPlotting(ChangeColourSplitter(s, splitter)).effects);
            && |queued| == 1
            && (queued[0].task.kind.Plain? <==> splitter == DefaultSplitter)
            && (queued[0].task.kind.Split? ==> queued[0].task.kind.splitter == Some(splitter))
  {
  }

  /** Every handle the state refers to was drawn before `nextHandle`. */
  predicate HandlesBelow(s: State)
  {
    && (s.activeTask.Some? ==> s.activeTask.value.id < s.nextHandle)
    && forall i :: 0 <= i < |s.submitted| && s.submitted[i].PlotWork? ==> s.submitted[i].task.id < s.nextHandle
  }

  /** startPlotting queues a task that is neither the one it cancels nor any
      task already submitted to the worker. */
  lemma StartPlottingQueuesFreshTask(s: State)
    requires HandlesBelow(s)
    requires s.openImage.Some?
    ensures var r := StartPlotting(s);
            var t := QueuedWork(r.effects)[0].task;
            && t !in CancelledTasks(r.effects)
            && PlotWork(t) !in s.submitted
            && HandlesBelow(r.state)
  {
    var r := StartPlotting(s);
    var t := QueuedWork(r.effects)[0].task;
    assert r.state.submitted == s.submitted + [PlotWork(t)];
  }
}
