/**
  The task orchestration of DrawingBotV3 as seen from the UI thread.

  Every operation is a pure function from the orchestrator's state to a new
  state plus an effect log: the calls it makes on collaborators whose code is
  not part of this model (plotting tasks, export tasks, the task monitor, the
  task worker). Tasks, export tasks and image loaders are opaque handles; a
  `new` in the source draws a fresh handle number from `nextHandle`.
  Work deferred through `Platform.runLater` runs after the current UI handler
  returns, so its effects are appended after the synchronous ones.
*/
module Orchestrator {
  import opened Wrappers

  // ---------------------------------------------------------------------------
  // Values the orchestrator only passes along

  datatype File = File(absolutePath: string)
  datatype FilteredImage = FilteredImage(id: nat)
  datatype Pfm = Pfm(id: nat)
  datatype PenSet = PenSet(id: nat)
  datatype GeometryFilter = GeometryFilter(id: nat)
  datatype DistributionType = DistributionType(name: string)

  /** EnumColourSplitter: DEFAULT, or one of the colour-separating splitters. */
  datatype ColourSplitter = DefaultSplitter | NamedSplitter(name: string)

  /** EnumDisplayMode: the values this code touches, plus the rest. */
  datatype DisplayMode = ImageMode | DrawingMode | SelectedPenMode | OtherMode(name: string)

  /** EnumTaskStage, in the order a plotting task runs through it. */
  datatype TaskStage = Queued | PreProcessing | DoProcess | PostProcessing | Finishing | Finished

  // ---------------------------------------------------------------------------
  // Opaque handles

  /** A PlottingTask, or a SplitPlottingTask carrying the splitter it was given. */
  datatype TaskKind = Plain | Split(splitter: Option<ColourSplitter>)

  /** A plotting task and the constructor arguments it was built from. */
  datatype PlotTask = PlotTask(
    id: nat,
    pfm: Option<Pfm>,
    penSet: Option<PenSet>,
    source: FilteredImage,
    file: Option<File>,
    kind: TaskKind)

  /** An export task and its constructor arguments; `fixedFlag` is the literal
      `true` the source passes as the fifth argument. */
  datatype ExportTask = ExportTask(
    id: nat,
    plotting: Option<PlotTask>,
    filter: Option<GeometryFilter>,
    portName: Option<string>,
    separatePens: bool,
    fixedFlag: bool,
    forceBypassOptimisation: bool)

  /** A BufferedImageLoader.Filtered for one file. */
  datatype ImageLoader = ImageLoader(id: nat, path: string, internal: bool)

  /** Anything handed to the task monitor's queueTask. */
  datatype Work = PlotWork(task: PlotTask) | ExportWork(job: ExportTask) | LoadWork(loader: ImageLoader)

  // ---------------------------------------------------------------------------
  // Effects

  /** An update the UI thread performs on the controller's widgets. */
  datatype UiIntent =
    | ShowDrawing
    | SetSliderDisplayedLines(fraction: real)
    | SetDisplayedLinesText(count: nat)
    | SetPlottedShapesLabel(count: nat)
    | SetPlottedVerticesLabel(count: nat)

  /** One call on a collaborator, in the order the source makes it. */
  datatype Effect =
    | Cancel(task: PlotTask)
    | StopElegantly(task: PlotTask)
    | ResetTask(task: PlotTask)
    | Queue(work: Work)
    | Resume(job: ExportTask)
    | Pause(job: ExportTask)
    | ShutdownWorker(generation: nat)
    | RebindMonitor(generation: nat)
    | SetDistributionType(penSet: Option<PenSet>, distribution: DistributionType)
    | RedistributePens(task: PlotTask)
    | ReRender
    | Ui(intent: UiIntent)

  // ---------------------------------------------------------------------------
  // State

  /** The fields of DrawingBotV3 the orchestration reads or writes. The task
      worker is a generation number plus the work submitted to it. */
  datatype State = State(
    activeTask: Option<PlotTask>,
    exportTask: Option<ExportTask>,
    openImage: Option<FilteredImage>,
    openFile: Option<File>,
    loadingImage: Option<ImageLoader>,
    renderedTask: Option<PlotTask>,
    displayMode: DisplayMode,
    updateDistributionType: Option<DistributionType>,
    colourSplitter: Option<ColourSplitter>,
    pfm: Option<Pfm>,
    penSet: Option<PenSet>,
    localProgress: Option<real>,
    localMessage: Option<string>,
    generation: nat,
    submitted: seq<Work>,
    nextHandle: nat)

  /** The field initialisers of DrawingBotV3. */
  function Initial(): (s: State)
    ensures s.activeTask.None? && s.exportTask.None? && s.openImage.None?
    ensures s.renderedTask.None? && s.displayMode == ImageMode && s.submitted == []
  {
    State(None, None, None, None, None, None, ImageMode, None, None, None, None,
          None, None, 0, [], 0)
  }

  datatype Step = Step(state: State, effects: seq<Effect>)
  datatype InitResult = InitResult(state: State, task: PlotTask, deferred: seq<Effect>)
  datatype ExportStep = ExportStep(state: State, effects: seq<Effect>, job: ExportTask)

  // ---------------------------------------------------------------------------
  // Reading effect logs

  /** The work a log hands to queueTask, in order. */
  function QueuedWork(effects: seq<Effect>): seq<Work>
  {
    if |effects| == 0 then []
    else (if effects[0].Queue? then [effects[0].work] else []) + QueuedWork(effects[1..])
  }

  /** The plotting tasks a log cancels, in order. */
  function CancelledTasks(effects: seq<Effect>): seq<PlotTask>
  {
    if |effects| == 0 then []
    else (if effects[0].Cancel? then [effects[0].task] else []) + CancelledTasks(effects[1..])
  }

  /** Every cancel comes before every queueing. */
  predicate CancelBeforeQueue(effects: seq<Effect>)
  {
    forall i, j :: 0 <= i < |effects| && 0 <= j < |effects| && effects[i].Cancel? && effects[j].Queue? ==> i < j
  }

  lemma {:induction false} QueuedWorkAppend(a: seq<Effect>, b: seq<Effect>)
    ensures QueuedWork(a + b) == QueuedWork(a) + QueuedWork(b)
    decreases |a|
  {
    if |a| == 0 {
      assert a + b == b;
    } else {
      var head := if a[0].Queue? then [a[0].work] else [];
      assert (a + b)[0] == a[0];
      assert (a + b)[1..] == a[1..] + b;
      QueuedWorkAppend(a[1..], b);
      calc {
        QueuedWork(a + b);
        head + QueuedWork(a[1..] + b);
        head + (QueuedWork(a[1..]) + QueuedWork(b));
        (head + QueuedWork(a[1..])) + QueuedWork(b);
        QueuedWork(a) + QueuedWork(b);
      }
    }
  }

  lemma {:induction false} CancelledTasksAppend(a: seq<Effect>, b: seq<Effect>)
    ensures CancelledTasks(a + b) == CancelledTasks(a) + CancelledTasks(b)
    decreases |a|
  {
    if |a| == 0 {
      assert a + b == b;
    } else {
      var head := if a[0].Cancel? then [a[0].task] else [];
      assert (a + b)[0] == a[0];
      assert (a + b)[1..] == a[1..] + b;
      CancelledTasksAppend(a[1..], b);
      calc {
        CancelledTasks(a + b);
        head + CancelledTasks(a[1..] + b);
        head + (CancelledTasks(a[1..]) + CancelledTasks(b));
        (head + CancelledTasks(a[1..])) + CancelledTasks(b);
        CancelledTasks(a) + CancelledTasks(b);
      }
    }
  }

  /** Submitting one unit of work to the current task worker. */
  function Submit(s: State, w: Work): (r: State)
    ensures r.submitted == s.submitted + [w]
    ensures r == s.(submitted := r.submitted)
  {
    s.(submitted := s.submitted + [w])
  }

  // ---------------------------------------------------------------------------
  // Operations of DrawingBotV3

  /** setActivePlottingTask: the outgoing task is reset (to drop its drawing)
      before being replaced; clearing the task shows the image again. */
  function SetActivePlottingTask(s: State, task: Option<PlotTask>): (r: Step)
    ensures r.state.activeTask == task
    ensures s.activeTask.Some? ==> r.effects == [ResetTask(s.activeTask.value)]
    ensures s.activeTask.None? ==> r.effects == []
    ensures task.None? ==> r.state.displayMode == ImageMode
    ensures task.Some? ==> r.state.displayMode == s.displayMode
    ensures r.state == s.(activeTask := task, displayMode := r.state.displayMode)
  {
    var resets := if s.activeTask.Some? then [ResetTask(s.activeTask.value)] else [];
    var mode := if task.None? then ImageMode else s.displayMode;
    Step(s.(activeTask := task, displayMode := mode), resets)
  }

  /** getRenderedTask: the rendered sub-task if there is one, else the active task. */
  function GetRenderedTask(s: State): (r: Option<PlotTask>)
    ensures s.renderedTask.Some? ==> r == s.renderedTask
    ensures s.renderedTask.None? ==> r == s.activeTask
    ensures r.None? <==> s.renderedTask.None? && s.activeTask.None?
  {
    if s.renderedTask.None? then s.activeTask else s.renderedTask
  }

  /** initPlottingTask: a plain task exactly when the configured splitter is
      DEFAULT, otherwise a split task carrying `splitter`. A pending
      distribution type is applied (deferred) and consumed only for DEFAULT. */
  function InitPlottingTask(s: State, pfm: Option<Pfm>, penSet: Option<PenSet>,
                            image: FilteredImage, file: Option<File>,
                            splitter: Option<ColourSplitter>): (r: InitResult)
    ensures r.task.kind.Plain? <==> s.colourSplitter == Some(DefaultSplitter)
    ensures r.task.kind.Split? ==> r.task.kind.splitter == splitter
    ensures r.task.pfm == pfm && r.task.penSet == penSet
    ensures r.task.source == image && r.task.file == file
    ensures r.task.id == s.nextHandle < r.state.nextHandle
    ensures (s.updateDistributionType.Some? && s.colourSplitter == Some(DefaultSplitter))
            ==> r.deferred == [SetDistributionType(penSet, s.updateDistributionType.value)]
                && r.state.updateDistributionType.None?
    ensures !(s.updateDistributionType.Some? && s.colourSplitter == Some(DefaultSplitter))
            ==> r.deferred == [] && r.state.updateDistributionType == s.updateDistributionType
    ensures r.state == s.(nextHandle := r.state.nextHandle,
                          updateDistributionType := r.state.updateDistributionType)
  {
    var plain := s.colourSplitter == Some(DefaultSplitter);
    var task := PlotTask(s.nextHandle, pfm, penSet, image, file, if plain then Plain else Split(splitter));
    var applies := s.updateDistributionType.Some? && plain;
    var deferred := if applies then [SetDistributionType(penSet, s.updateDistributionType.value)] else [];
    var pending := if applies then None else s.updateDistributionType;
    InitResult(s.(nextHandle := s.nextHandle + 1, updateDistributionType := pending), task, deferred)
  }

  /** The log of a start that queues: at most one cancel, the queueing, then
      deferred distribution-type updates. */
  lemma StartLog(cancels: seq<Effect>, w: Work, deferred: seq<Effect>)
    requires |cancels| <= 1 && forall i :: 0 <= i < |cancels| ==> cancels[i].Cancel?
    requires forall i :: 0 <= i < |deferred| ==> deferred[i].SetDistributionType?
    ensures QueuedWork(cancels + [Queue(w)] + deferred) == [w]
    ensures CancelledTasks(cancels + [Queue(w)] + deferred) == CancelledTasks(cancels)
    ensures CancelBeforeQueue(cancels + [Queue(w)] + deferred)
  {
    assert QueuedWork(cancels) == [] by {
      if |cancels| == 1 {
        assert QueuedWork(cancels) == [] + QueuedWork(cancels[1..]);
      }
    }
    DeferredLogQuiet(deferred);
    QueuedWorkAppend(cancels, [Queue(w)]);
    QueuedWorkAppend(cancels + [Queue(w)], deferred);
    CancelledTasksAppend(cancels, [Queue(w)]);
    CancelledTasksAppend(cancels + [Queue(w)], deferred);
    StartLogOrdered(cancels, w, deferred);
  }

  lemma StartLogOrdered(cancels: seq<Effect>, w: Work, deferred: seq<Effect>)
    requires forall i :: 0 <= i < |cancels| ==> cancels[i].Cancel?
    requires forall i :: 0 <= i < |deferred| ==> deferred[i].SetDistributionType?
    ensures CancelBeforeQueue(cancels + [Queue(w)] + deferred)
  {
  }

  /** A log of deferred distribution-type updates queues and cancels nothing. */
  lemma {:induction false} DeferredLogQuiet(deferred: seq<Effect>)
    requires forall i :: 0 <= i < |deferred| ==> deferred[i].SetDistributionType?
    ensures QueuedWork(deferred) == [] && CancelledTasks(deferred) == []
    decreases |deferred|
  {
    if |deferred| > 0 {
      DeferredLogQuiet(deferred[1..]);
    }
  }

  /** startPlotting: cancel the active task (if any) first, then queue a new
      task only when an image is open. The active task is left for the task
      monitor to replace. */
  function StartPlotting(s: State): (r: Step)
    ensures r.state.activeTask == s.activeTask
    ensures CancelledTasks(r.effects) == (if s.activeTask.Some? then [s.activeTask.value] else [])
    ensures s.activeTask.Some? ==> r.effects[0] == Cancel(s.activeTask.value)
    ensures CancelBeforeQueue(r.effects)
    ensures s.openImage.None? ==> QueuedWork(r.effects) == [] && r.state == s
    ensures s.openImage.Some? ==>
              && |QueuedWork(r.effects)| == 1
              && QueuedWork(r.effects)[0].PlotWork?
              && var t := QueuedWork(r.effects)[0].task;
                 && t.id == s.nextHandle < r.state.nextHandle
                 && t.source == s.openImage.value && t.file == s.openFile
                 && t.pfm == s.pfm && t.penSet == s.penSet
                 && (t.kind.Plain? <==> s.colourSplitter == Some(DefaultSplitter))
    ensures r.state.submitted == s.submitted + QueuedWork(r.effects)
    ensures r.state.exportTask == s.exportTask && r.state.openImage == s.openImage
    ensures r.state.generation == s.generation && r.state.displayMode == s.displayMode
  {
    var cancels := if s.activeTask.Some? then [Cancel(s.activeTask.value)] else [];
    assert QueuedWork(cancels) == [];
    if s.openImage.None? then
      Step(s, cancels)
    else
      var init := InitPlottingTask(s, s.pfm, s.penSet, s.openImage.value, s.openFile, s.colourSplitter);
      var queued := [Queue(PlotWork(init.task))];
      var effects := cancels + queued + init.deferred;
      StartLog(cancels, PlotWork(init.task), init.deferred);
      Step(Submit(init.state, PlotWork(init.task)), effects)
  }

  /** stopPlotting: only a graceful stop of the active task, never a cancel. */
  function StopPlotting(s: State): (r: Step)
    ensures r.state == s
    ensures s.activeTask.None? ==> r.effects == []
    ensures s.activeTask.Some? ==> r.effects == [StopElegantly(s.activeTask.value)]
    ensures CancelledTasks(r.effects) == [] && QueuedWork(r.effects) == []
  {
    Step(s, if s.activeTask.Some? then [StopElegantly(s.activeTask.value)] else [])
  }

  /** resetPlotting: shut the worker down, clear the active task, start a fresh
      worker, bind the monitor to it, and zero the local progress and message. */
  function ResetPlotting(s: State): (r: Step)
    ensures r.state.activeTask.None? && r.state.displayMode == ImageMode
    ensures r.state.generation == s.generation + 1 && r.state.submitted == []
    ensures r.state.localProgress == Some(0.0) && r.state.localMessage == Some("")
    ensures |r.effects| >= 2
    ensures r.effects[0] == ShutdownWorker(s.generation)
    ensures r.effects[|r.effects| - 1] == RebindMonitor(r.state.generation)
    ensures r.effects[1..|r.effects| - 1] == SetActivePlottingTask(s, None).effects
    ensures QueuedWork(r.effects) == [] && CancelledTasks(r.effects) == []
    ensures r.state.exportTask == s.exportTask && r.state.openImage == s.openImage
    ensures r.state.nextHandle == s.nextHandle
  {
    var cleared := SetActivePlottingTask(s, None);
    var gen := s.generation + 1;
    var effects := [ShutdownWorker(s.generation)] + cleared.effects + [RebindMonitor(gen)];
    assert QueuedWork(cleared.effects) == [] && CancelledTasks(cleared.effects) == [];
    QueuedWorkAppend([ShutdownWorker(s.generation)], cleared.effects);
    QueuedWorkAppend([ShutdownWorker(s.generation)] + cleared.effects, [RebindMonitor(gen)]);
    CancelledTasksAppend([ShutdownWorker(s.generation)], cleared.effects);
    CancelledTasksAppend([ShutdownWorker(s.generation)] + cleared.effects, [RebindMonitor(gen)]);
    Step(cleared.state.(generation := gen, submitted := [], localProgress := Some(0.0), localMessage := Some("")),
         effects)
  }

  /** openImage: a live task is cancelled and dropped together with the open
      image; in every case the file is remembered and one loader is queued. */
  function OpenImage(s: State, file: File, internal: bool): (r: Step)
    ensures r.state.openFile == Some(file)
    ensures r.state.loadingImage.Some?
    ensures var l := r.state.loadingImage.value;
              l.path == file.absolutePath && l.internal == internal && l.id >= s.nextHandle
              && QueuedWork(r.effects) == [LoadWork(l)]
              && r.effects[|r.effects| - 1] == Queue(LoadWork(l))
              && r.state.submitted == s.submitted + [LoadWork(l)]
    ensures r.state.nextHandle > s.nextHandle
    ensures r.state.activeTask.None?
    ensures s.activeTask.Some? ==>
              && |r.effects| == 3
              && r.effects[..2] == [Cancel(s.activeTask.value), ResetTask(s.activeTask.value)]
              && r.state.openImage.None? && r.state.displayMode == ImageMode
    ensures s.activeTask.None? ==>
              |r.effects| == 1 && r.state.openImage == s.openImage && r.state.displayMode == s.displayMode
    ensures CancelledTasks(r.effects) == (if s.activeTask.Some? then [s.activeTask.value] else [])
    ensures r.state.exportTask == s.exportTask && r.state.generation == s.generation
  {
    var cleared :=
      if s.activeTask.Some? then
        var c := SetActivePlottingTask(s, None);
        Step(c.state.(openImage := None, loadingImage := None), [Cancel(s.activeTask.value)] + c.effects)
      else Step(s, []);
    var loader := ImageLoader(cleared.state.nextHandle, file.absolutePath, internal);
    var next := cleared.state.(openFile := Some(file), loadingImage := Some(loader),
                               nextHandle := cleared.state.nextHandle + 1);
    var queued := [Queue(LoadWork(loader))];
    assert QueuedWork(cleared.effects) == [] &&
           CancelledTasks(cleared.effects) == (if s.activeTask.Some? then [s.activeTask.value] else []) by {
      if s.activeTask.Some? {
        var t := s.activeTask.value;
        assert cleared.effects == [Cancel(t)] + [ResetTask(t)];
        QueuedWorkAppend([Cancel(t)], [ResetTask(t)]);
        CancelledTasksAppend([Cancel(t)], [ResetTask(t)]);
      }
    }
    QueuedWorkAppend(cleared.effects, queued);
    CancelledTasksAppend(cleared.effects, queued);
    Step(Submit(next, LoadWork(loader)), cleared.effects + queued)
  }

  /** createExportTask: with no export task stored, create one, store it and
      queue it; otherwise resume the stored one and ignore the arguments. */
  function CreateExportTask(s: State, plotting: Option<PlotTask>, filter: Option<GeometryFilter>,
                            portName: Option<string>, separatePens: bool,
                            forceBypassOptimisation: bool): (r: ExportStep)
    ensures r.state.exportTask == Some(r.job)
    ensures s.exportTask.Some? ==>
              r.job == s.exportTask.value && r.state == s && r.effects == [Resume(r.job)]
    ensures s.exportTask.None? ==>
              && r.job.id == s.nextHandle < r.state.nextHandle
              && r.job == ExportTask(r.job.id, plotting, filter, portName, separatePens, true, forceBypassOptimisation)
              && r.effects == [Queue(ExportWork(r.job))]
              && r.state.submitted == s.submitted + [ExportWork(r.job)]
              && r.state == s.(exportTask := Some(r.job), nextHandle := r.state.nextHandle,
                               submitted := r.state.submitted)
  {
    if s.exportTask.None? then
      var job := ExportTask(s.nextHandle, plotting, filter, portName, separatePens, true, forceBypassOptimisation);
      ExportStep(Submit(s.(exportTask := Some(job), nextHandle := s.nextHandle + 1), ExportWork(job)),
                 [Queue(ExportWork(job))], job)
    else
      ExportStep(s, [Resume(s.exportTask.value)], s.exportTask.value)
  }

  /** pauseExportTask: pause the stored export task, keeping it stored; no-op without one. */
  function PauseExportTask(s: State): (r: Step)
    ensures r.state == s
    ensures s.exportTask.None? ==> r.effects == []
    ensures s.exportTask.Some? ==> r.effects == [Pause(s.exportTask.value)]
  {
    Step(s, if s.exportTask.Some? then [Pause(s.exportTask.value)] else [])
  }

  /** updatePenDistribution: only a finished active task is redistributed and
      re-rendered. `activeFinished` is what the active task's
      isTaskFinished() answers. */
  function UpdatePenDistribution(s: State, activeFinished: bool): (r: Step)
    ensures r.state == s
    ensures r.effects != [] <==> s.activeTask.Some? && activeFinished
    ensures r.effects != [] ==> r.effects == [RedistributePens(s.activeTask.value), ReRender]
  {
    if s.activeTask.Some? && activeFinished then
      Step(s, [RedistributePens(s.activeTask.value), ReRender])
    else Step(s, [])
  }

  /** onPlottingTaskStageFinished as a map from the finished stage to the UI
      updates it schedules; the counts are those of the task's drawing. */
  function StageIntents(stage: TaskStage, geometryCount: nat, vertexCount: nat): seq<UiIntent>
  {
    match stage
    case PreProcessing => [ShowDrawing]
    case DoProcess =>
      [SetSliderDisplayedLines(1.0), SetDisplayedLinesText(geometryCount),
       SetPlottedShapesLabel(geometryCount), SetPlottedVerticesLabel(vertexCount)]
    case _ => []
  }

  /** The stage-finished event applied to the state: only the display mode can change. */
  function OnPlottingTaskStageFinished(s: State, stage: TaskStage, geometryCount: nat, vertexCount: nat): (r: Step)
    ensures stage == PreProcessing ==> r.state.displayMode == DrawingMode
    ensures r.state == s.(displayMode := r.state.displayMode)
    ensures stage != PreProcessing ==> r.state == s
    ensures |r.effects| == |StageIntents(stage, geometryCount, vertexCount)|
    ensures forall i :: 0 <= i < |r.effects| ==>
              r.effects[i] == Ui(StageIntents(stage, geometryCount, vertexCount)[i])
  {
    var intents := StageIntents(stage, geometryCount, vertexCount);
    var mode := if ShowDrawing in intents then DrawingMode else s.displayMode;
    Step(s.(displayMode := mode), seq(|intents|, i requires 0 <= i < |intents| => Ui(intents[i])))
  }

  /** Only two stages schedule UI work: finishing pre-processing switches to
      the drawing view, finishing the processing itself publishes the full
      geometry count (slider at 100%, text field, shape and vertex labels). */
  lemma StageFinishedSchedules(s: State, stage: TaskStage, geometryCount: nat, vertexCount: nat)
    ensures var r := OnPlottingTaskStageFinished(s, stage, geometryCount, vertexCount);
            && (r.effects != [] <==> stage == PreProcessing || stage == DoProcess)
            && (stage == PreProcessing ==> r.effects == [Ui(ShowDrawing)])
            && (stage == DoProcess ==>
                  r.effects == [Ui(SetSliderDisplayedLines(1.0)), Ui(SetDisplayedLinesText(geometryCount)),
                                Ui(SetPlottedShapesLabel(geometryCount)), Ui(SetPlottedVerticesLabel(vertexCount))])
  {
  }
}
