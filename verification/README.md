# DrawingBotV3 orchestration core in Dafny

This project models two parts of DrawingBotV3, a desktop application that turns images into pen-plotter drawings and streams G-code to a plotter over a serial port.

1. **The task orchestration of `DrawingBotV3`.** This is the singleton that starts, stops and resets plotting tasks, opens images and creates, resumes and pauses the export task that drives the plotter.
   - The model is functional. An immutable `Orchestrator.State` holds:
     - the active, export, rendered and loading tasks as opaque handles;
     - the open image and file, the display mode and the pending distribution type;
     - the local progress and message;
     - the worker, as a generation counter plus the work submitted to it.
   - Every operation returns the new state and an ordered log of the calls it makes on collaborators. Examples are `Cancel`, `StopElegantly`, `ResetTask`, `Queue`, `Resume`, `Pause`, `ShutdownWorker`, `RebindMonitor` and the deferred UI updates.
   - Work that the source defers with `Platform.runLater` is logged after the synchronous calls of the same operation.
   - `OrchestratorTraces` folds any sequence of these operations and proves properties of every trace. Examples are "an export task, once stored, is never replaced or cleared", "at most one export task is ever queued" and "a chosen distribution type is applied at most once".

2. **The decision logic inside the `FXController` handlers**, with the JavaFX bindings stripped away.
   - `Controller` holds:
     - the displayed-lines text field and slider (clamp, echo, and the slider listener the text handler re-enters);
     - the rotate button;
     - padding ganging;
     - serial-port selection deciding the G-code builder;
     - the disable predicates of the plotting, session, jog and home buttons.
   - `Jog` holds:
     - the fixed move vector of each jog button;
     - the press/hold/release protocol, modelled as a run over a trace of armed-property changes and timer firings. It is proved to bracket every `manualMove` of a button strictly between an `enterManualMode` and an `exitManualMode` of that same button. The brackets are per button: the buttons share one builder, and overlapping presses of two buttons interleave their calls on it.

Handles stand for Java object identity. Each `new` takes a fresh number from `nextHandle`. `Wrappers.Option` stands for a nullable reference.

## Model

| member | source | states |
|---|---|---|
| Orchestrator.SetActivePlottingTask | DrawingBotV3.java:297-306 | The outgoing active task, if any, is reset (and nothing else is called) before the new task is stored. A null replacement forces the IMAGE display mode; a real one leaves the mode alone. No other field changes. |
| Orchestrator.GetRenderedTask | DrawingBotV3.java:312-314 | The rendered sub-task wins when present; otherwise the active task. The result is null only when both are null. |
| Orchestrator.InitPlottingTask | DrawingBotV3.java:245-254 | A plain task is built iff the colour splitter is DEFAULT; otherwise a split task carries the given splitter. Either task holds the given path-finder module, pen set, image and file under a fresh handle. A pending distribution type is applied to the pen set (deferred) and consumed only when the splitter is DEFAULT; otherwise it stays pending. |
| Orchestrator.StartPlotting | DrawingBotV3.java:256-263 | The active task (if any) is cancelled first, and is the only task cancelled. Cancellation precedes every queueing. Exactly one new task, built from the open image, file, module and pen set, is queued iff an image is open; without one the state is unchanged. The active task, export task and worker generation are never assigned. |
| Orchestrator.StopPlotting | DrawingBotV3.java:265-269 | The only call is stopElegantly on the active task: it never cancels or queues anything. It is a no-op without an active task, and the state never changes. |
| Orchestrator.ResetPlotting | DrawingBotV3.java:271-279 | The current worker is shut down first, the active task is cleared through setActivePlottingTask, and the monitor is rebound last to a new worker generation that holds no work. Progress becomes 0 and the message empty. The export task and open image are kept. |
| Orchestrator.OpenImage | DrawingBotV3.java:283-292 | A live active task is cancelled and cleared together with the open image and loader. In every case the file is remembered and exactly one new loader, for its absolute path and internal flag, is queued (last) and submitted to the worker. |
| Orchestrator.CreateExportTask | DrawingBotV3.java:320-330 | With no export task stored, a new one is created from the arguments (fixed flag true), stored, queued exactly once and returned. With one stored, the only call is resume on it. That same instance is returned, the state is unchanged and the new arguments are ignored. |
| Orchestrator.PauseExportTask | DrawingBotV3.java:331-336 | It pauses the stored export task without replacing it, and is a no-op without one. The state never changes. |
| Orchestrator.UpdatePenDistribution | DrawingBotV3.java:232-237 | Pens are redistributed and the view re-rendered iff there is an active task and it is finished; otherwise nothing is called. |
| Orchestrator.OnPlottingTaskStageFinished | DrawingBotV3.java:190-213 | The display mode becomes DRAWING after PRE_PROCESSING and nothing else in the state changes. The log holds exactly the UI updates of the stage, in order. |
| Orchestrator.StageFinishedSchedules | DrawingBotV3.java:190-213 | Only PRE_PROCESSING (show the drawing) and DO_PROCESS (slider to 1.0; text field and shapes label to the geometry count; vertices label to the vertex count) schedule UI work. QUEUED, POST_PROCESSING, FINISHING and FINISHED schedule none. |
| OrchestratorTraces.ChangeColourSplitter | FXController.java:786-793 | Choosing a colour splitter (in the two-way bound choice box, or through a splitter's drawing set) stores it and changes nothing else. |
| OrchestratorTraces.SplitterChoosesTaskKind | DrawingBotV3.java:245-263 | With an image open, the next start after choosing a splitter queues one task. It is plain iff the splitter is DEFAULT, and a split task carries the chosen splitter. |
| OrchestratorTraces.ImageLoaded | DrawingBotV3.java:108 | The loader finishing makes its image the open image and changes nothing else. |
| OrchestratorTraces.LoadedImageIsPlotted | DrawingBotV3.java:256-292 | Opening a file, letting its loader finish, then starting queues exactly one plotting task, built from the loaded image and tagged with the opened file. Starting before the loader finishes, after an active task was cleared, queues nothing. |
| OrchestratorTraces.RenderedIsActive | DrawingBotV3.java:312-314 | Over any trace from the initial state, getRenderedTask returns the active task, because no operation assigns the rendered task. |
| OrchestratorTraces.ChangePathFinderModule | FXController.java:781-784 | Selecting a path-finder module stores it and records its distribution type as pending, and changes nothing else. |
| OrchestratorTraces.ExportTaskNeverCleared | DrawingBotV3.java:110 | Over any sequence of operations, a stored export task stays stored unchanged: no operation sets it back to null or replaces it. |
| OrchestratorTraces.ExportQueuedAtMostOnce | DrawingBotV3.java:320-330 | Over any trace at most one export task is queued, and none if one was already stored. The queued one is the task still stored at the end. |
| OrchestratorTraces.DistributionUpdateOneShot | DrawingBotV3.java:246-251 | Over any trace, the distribution-type updates applied plus the one still pending never exceed the path-finder changes plus the one pending at the start. Each chosen distribution type is applied at most once. |
| OrchestratorTraces.GenerationCountsResets | DrawingBotV3.java:271-275 | The worker generation advances by exactly the number of resets in the trace. |
| OrchestratorTraces.WorkerHoldsQueuedTail | DrawingBotV3.java:272-275 | The work held by the current worker is always a tail of everything queued over the trace: a reset discards the old worker's work. |
| OrchestratorTraces.WorkerHoldsAllQueued | DrawingBotV3.java:256-263 | In a trace without resets, the worker holds exactly the work queued, in order. |
| OrchestratorTraces.SecondExportRequestResumes | DrawingBotV3.java:320-330 | A second export request returns the same instance as the first and resumes it. It queues nothing, leaves the state as it was and ignores its own arguments. |
| OrchestratorTraces.StartTwiceQueuesTwo | DrawingBotV3.java:256-263 | Starting twice before the monitor activates anything queues two distinct tasks, the first with the older handle. |
| OrchestratorTraces.StartTwiceCancelsOnlyPrevious | DrawingBotV3.java:256-263 | Of two starts in a row, both cancel only the task active before the first (so it is cancelled twice); the task the first start queued is never cancelled. |
| OrchestratorTraces.ResetThenStart | DrawingBotV3.java:256-279 | After a reset, a start cancels nothing. The fresh worker then holds just the new task, under the next generation. |
| OrchestratorTraces.StartPlottingQueuesFreshTask | DrawingBotV3.java:253-261 | The task a start queues is new: it is neither the cancelled task nor any work already submitted. The freshness invariant is preserved. |
| Jog.JogVector | FXController.java:838-861 | Each pair of opposite buttons moves along its own axis: forward/backward along x, right/left along y, pen up/down along the pen axis. Forward, right and up are positive. Plane moves have length 5, pen moves length 1. |
| Jog.JogVectorsOpposeAndDiffer | FXController.java:838-861 | Opposite buttons have opposite vectors, and no two buttons share a vector. |
| Jog.Handle | FXController.java:862-915 | Each event touches only its own button. Every other button keeps its armed and running state, and every call names the event's button. A timer runs exactly while its button is armed. |
| Jog.TimerRunsIffArmed | FXController.java:862-915 | Over any event trace, a button's timer runs exactly while the button is armed. |
| Jog.SharedBuilderInterleaving | FXController.java:862-915 | Arm forward, arm right, disarm forward, fire right's timer, disarm right: the shared builder sees forward's exitManualMode before right's move. The brackets hold per button, not per builder. |
| Jog.HandleReacts | FXController.java:862-915 | Arming an unarmed button calls enterManualMode and then starts its timer. Disarming an armed one stops the timer and then calls exitManualMode. An unchanged armed value calls nothing. A firing moves by the button's vector only while its timer runs. |
| Jog.HandleBracketed | FXController.java:862-915 | Every single event keeps each button's calls within the bracket protocol enter, start, move*, stop, exit. Armed and running buttons stay the same set. |
| Jog.SessionBracketed | FXController.java:862-915 | Every event trace keeps each button's calls within the bracket protocol, from any consistent panel. |
| Jog.MovesBracketedFrom | FXController.java:862-915 | In a call sequence the protocol accepts back to idle, every move of a button has an exit of that button after it. It also has an enter before it when the sequence starts idle. |
| Jog.MovesStrictlyBracketed | FXController.java:862-915 | In any trace from an idle panel that ends with every button released, each manualMove of a button lies strictly between an enterManualMode and an exitManualMode of that same button. |
| Jog.PressHoldRelease | FXController.java:838-915 | Pressing a button, n timer firings and releasing produce exactly: enter, timer start, n moves by the button's vector, timer stop, exit. The panel ends idle. |
| Controller.ClampedLines | FXController.java:213 | The count is within [0, geometry count]. NaN and negative infinity give 0, positive infinity the geometry count. A value at or below 0 gives 0, one at or above the geometry count gives the geometry count, and a value in between is rounded down. |
| Controller.SliderAt | FXController.java:216 | The handler puts the slider at the count divided by the geometry count: a position in [0, 1] that scales back to the count, the end for the full count, and no position (NaN) for an empty drawing. |
| Controller.SliderAtInjective | FXController.java:216 | Different counts put the slider at different positions. |
| Controller.OnSliderMoved | FXController.java:199-208 | The slider listener acts iff a task is active. It then stores and shows the count the slider's position maps to. |
| Controller.OnDisplayedLinesAction | FXController.java:199-219 | Something happens iff a task is active and the text parses. The count is clamped and the slider moved to match it. If the slider's position is unchanged, the clamped count is stored and shown. If it changes, the slider listener runs inside the handler and its count is what is finally stored and shown. Stored and shown counts always agree. |
| Controller.WholeNumberEntryClamps | FXController.java:199-219 | Entering a whole number n clamps it to max(0, min(geometry count, n)). That count is finally stored and shown whenever the slider reads each position it was set to back as its count. |
| Controller.SliderOverwritesEntry | FXController.java:199-219 | With 22 geometries, entering 15 with the slider at its end clamps to 15, but a slider that reads 15/22 back as 14 leaves 14 stored and shown. |
| Controller.EchoIsStable | FXController.java:199-219 | Pressing Enter again on the shown count clamps to that count when it lies within [0, geometry count]. When the slider reads its positions back exactly, the second Enter changes nothing. |
| Controller.FinishedCountIsAccepted | DrawingBotV3.java:197-203 | When processing finishes, the slider goes to its end and the text field to the full geometry count. Pressing Enter on that text keeps every geometry displayed without moving the slider. For an empty drawing the slider moves to NaN and its listener decides the count. |
| Controller.Rotate | FXController.java:359-364 | Rotate swaps the width and height texts. |
| Controller.RotateTwiceRestores | FXController.java:359-364 | Rotating twice restores both texts; rotating a square changes nothing. |
| Controller.UpdatePaddingBindings | FXController.java:408-421 | Ganging sets the shared padding to "0", links all four sides and shows "0" on each. Unganging unlinks all four, keeping every text and the shared value. Either way, every linked side shows the shared value. |
| Controller.EditPadding | FXController.java:408-421 | Typing into a linked side sets the shared value and every linked side to the text. Typing into an unlinked side changes that side alone. |
| Controller.PaddingStaysConsistent | FXController.java:408-421 | Ganging, unganging and typing all keep every linked side equal to the shared value. While ganged, all four sides always agree. |
| Controller.SelectPort | FXController.java:826-833 | A null or empty port name clears the builder; any other name installs a builder on a port of exactly that name. |
| Controller.Disabled | FXController.java:916-922 | The jog and home buttons are disabled iff no builder is selected. Start and stop plotting follow the monitor's plotting flag (lines 279-281), and start and pause session its exporting flag (lines 835-837), with start disabled while the flag is set and the other button disabled while it is clear. |
| Controller.PairedButtonsAlternate | FXController.java:279-281 | Exactly one of start/stop plotting is enabled, stop iff plotting. Exactly one of start/pause session is enabled, pause iff exporting. |
| Controller.JogEnabledIffPortNamed | FXController.java:826-922 | After a port selection, every jog button and the home button is enabled iff a non-empty port name was chosen, whatever the task monitor says. |

## Left out

- SplashPreloader.java is not part of this model: it is window animation and a busy-wait on a flag.
- Threads, the executor services, the interruption done by `shutdownNow`, and when `Platform.runLater` work runs. The worker is a generation counter plus its submitted work, and deferred work is logged after the synchronous calls.
- The internals of PlottingTask, SplitPlottingTask, ExportTask, TaskMonitor, GCodeBuilder and ComPort are not part of this model. They are opaque handles, and only the calls made on them are logged.
  - The monitor's `isPlotting`/`isExporting` flags are inputs.
  - The monitor making a queued task active is an explicit `SetActiveOp`.
  - Whether an active task is finished is an input to `UpdatePenDistribution`.
  - The geometry and vertex counts of a drawing are inputs.
- ExportTask and TaskMonitor are not part of this model, so nothing is claimed about what they do with the stored export task. The export task is never cleared by the code modelled here, so after the first export, every later `createExportTask` call resumes the same task. The start-session button reaches `createExportTask` through `FXHelper.exportToMachine`, and FXHelper is not part of this model.
- `renderedTask` is read by `getRenderedTask` but never assigned in DrawingBotV3.java or FXController.java. It is a state field that no modelled operation changes.
- Serial-port enumeration, the refresh button and the 500 ms cadence of the jog timers. Timer firings are events in the jog trace.
- Jog.SessionBracketed: the builder is taken to be present for the whole press/hold/release session, since the jog buttons are disabled while no builder is selected. A port change while a button is held is not modelled.
- Controller.SelectPort: the source compares the new value to `""` by reference. The model uses an emptiness test.
- Controller.ClampedLines: `Double.parseDouble` is modelled by its outcome, `ParsedNumber`. `Finite` carries the double the parse produced, so the rounding of decimal text to a double happens before the model. Text that does not parse is `Malformed`, and the handler stops before changing anything.
- Controller.OnDisplayedLinesAction: the slider position is the exact quotient of the count by the geometry count, standing for the double the source computes. Whether the slider's value changes is a comparison of these positions. How the listener maps a position back to a count (`Utils.mapDouble` and the int cast) is an input function, because Utils is not part of this model. The two `reRender` calls are not logged.
- Controller.WholeNumberEntryClamps: the clamped count is promised as the final stored count only when the slider reads its own positions back exactly. Double rounding in the listener can lower it, as Controller.SliderOverwritesEntry shows.
- Controller.EchoIsStable: a second Enter is promised to change nothing only when the slider reads its own positions back exactly, for the same reason.
- The image loader (`BufferedImageLoader.Filtered`) is not part of this model. Its completion is the explicit `ImageLoadedOp`, which sets the open image.
- The millimetre conversions, zoom steps and the float parsing of the size and padding fields are floating-point UI arithmetic.
- The window title set by `openImage` and all logging (including the progress logged by the export operations).
- Number formatting of the plotted-shapes and vertices labels: the model carries the counts themselves.
- Menus, presets, table cells, drag-and-drop and viewport scrolling are UI wiring with no decision logic.
