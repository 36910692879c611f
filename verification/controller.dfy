/**
  Decision logic of the FXController handlers, with the JavaFX bindings
  stripped away: the displayed-lines text field, the rotate button, the
  padding ganging, the serial-port selection and the enabling of controls.
*/
module Controller {
  import opened Wrappers
  import opened Jog
  import Orchestrator

  // ---------------------------------------------------------------------------
  // Displayed-lines text field

  /** What Double.parseDouble makes of the text field's contents. */
  datatype ParsedNumber = Finite(value: real) | NotANumber | PositiveInfinity | NegativeInfinity | Malformed

  /** `(int) Math.max(0, Math.min(geometryCount, x))` on doubles: NaN passes
      through min and max and casts to 0, the infinities clamp, and the cast
      of the non-negative result truncates, which is rounding down. */
  function ClampedLines(geometryCount: nat, x: ParsedNumber): (lines: nat)
    requires !x.Malformed?
    ensures lines <= geometryCount
    ensures x.NotANumber? || x.NegativeInfinity? ==> lines == 0
    ensures x.PositiveInfinity? ==> lines == geometryCount
    ensures x.Finite? && x.value <= 0.0 ==> lines == 0
    ensures x.Finite? && x.value >= geometryCount as real ==> lines == geometryCount
    ensures x.Finite? && 0.0 <= x.value <= geometryCount as real ==>
              lines as real <= x.value < lines as real + 1.0
  {
    match x
    case Finite(v) =>
      var c := if v < 0.0 then 0.0 else if v > geometryCount as real then geometryCount as real else v;
      c.Floor
    case NotANumber => 0
    case PositiveInfinity => geometryCount
    case NegativeInfinity => 0
  }

  /** The value of the displayed-lines slider (range 0 to 1). `NotAPosition`
      is the NaN that `0.0 / 0` produces for a drawing with no geometries. */
  datatype SliderPosition = Fraction(value: real) | NotAPosition

  /** `(double) lines / geometryCount`, the slider value the text handler writes. */
  function SliderAt(lines: nat, geometryCount: nat): (pos: SliderPosition)
    requires lines <= geometryCount
    ensures geometryCount == 0 <==> pos.NotAPosition?
    ensures pos.Fraction? ==> 0.0 <= pos.value <= 1.0 && pos.value * geometryCount as real == lines as real
    ensures lines == geometryCount > 0 ==> pos == Fraction(1.0)
  {
    if geometryCount == 0 then NotAPosition else Fraction(lines as real / geometryCount as real)
  }

  /** Different counts put the slider at different positions. */
  lemma SliderAtInjective(a: nat, b: nat, g: nat)
    requires a <= g && b <= g
    ensures SliderAt(a, g) == SliderAt(b, g) <==> a == b
  {
    if g > 0 && SliderAt(a, g) == SliderAt(b, g) {
      assert a as real == SliderAt(a, g).value * g as real == b as real;
    }
  }

  /** The slider's value listener. With an active task it stores the count
      the slider reads and writes it into the text field; without one it does
      nothing. `sliderCount` is `(int) Utils.mapDouble(v, 0, 1, 0, g)` for the
      active task's geometry count g; Utils is not part of this model. */
  function OnSliderMoved(activeGeometryCount: Option<nat>, pos: SliderPosition,
                         sliderCount: SliderPosition -> int): (shown: Option<int>)
    ensures shown.Some? <==> activeGeometryCount.Some?
    ensures shown.Some? ==> shown.value == sliderCount(pos)
  {
    if activeGeometryCount.None? then None else Some(sliderCount(pos))
  }

  /** What the text handler leaves behind: the clamped count it computed, the
      count finally stored as displayedLineCount, the text finally shown,
      and the slider position. */
  datatype LinesUpdate = LinesUpdate(clamped: nat, stored: int, echoed: int, slider: SliderPosition)

  /** The text field's action handler. Without an active task nothing happens;
      text that does not parse throws before anything is updated. Otherwise
      the clamped count is stored and echoed, and the slider is moved to match.
      A slider whose value changes runs its listener inside that call, and the
      listener's count then overwrites both the stored count and the text. */
  function OnDisplayedLinesAction(activeGeometryCount: Option<nat>, text: ParsedNumber,
                                  sliderBefore: SliderPosition,
                                  sliderCount: SliderPosition -> int): (r: Option<LinesUpdate>)
    ensures r.Some? <==> activeGeometryCount.Some? && !text.Malformed?
    ensures r.Some? ==> r.value.clamped == ClampedLines(activeGeometryCount.value, text)
    ensures r.Some? ==> r.value.slider == SliderAt(r.value.clamped, activeGeometryCount.value)
    ensures r.Some? ==> r.value.echoed == r.value.stored
    ensures r.Some? && r.value.slider == sliderBefore ==> r.value.stored == r.value.clamped
    ensures r.Some? && r.value.slider != sliderBefore ==> r.value.stored == sliderCount(r.value.slider)
  {
    if activeGeometryCount.None? || text.Malformed? then None
    else
      var g := activeGeometryCount.value;
      var lines := ClampedLines(g, text);
      var pos := SliderAt(lines, g);
      if pos == sliderBefore then Some(LinesUpdate(lines, lines, lines, pos))
      else
        var relisted := OnSliderMoved(activeGeometryCount, pos, sliderCount).value;
        Some(LinesUpdate(lines, relisted, relisted, pos))
  }

  /** The slider reads back exactly the count it was set from. */
  ghost predicate SliderReadsExactly(sliderCount: SliderPosition -> int, g: nat)
  {
    forall k: nat {:trigger SliderAt(k, g)} :: k <= g ==> sliderCount(SliderAt(k, g)) == k
  }

  /** A whole number n entered with an active task of g geometries is clamped
      to the member of [0, g] nearest to n; that count is the one finally
      stored and shown when the slider reads its own position back exactly. */
  lemma WholeNumberEntryClamps(g: nat, n: int, sliderBefore: SliderPosition, sliderCount: SliderPosition -> int)
    ensures var r := OnDisplayedLinesAction(Some(g), Finite(n as real), sliderBefore, sliderCount);
            && r.Some?
            && (n <= 0 ==> r.value.clamped == 0)
            && (n >= g ==> r.value.clamped == g)
            && (0 <= n <= g ==> r.value.clamped == n)
            && r.value.echoed == r.value.stored
            && (SliderReadsExactly(sliderCount, g) ==> r.value.stored == r.value.clamped)
  {
    var r := OnDisplayedLinesAction(Some(g), Finite(n as real), sliderBefore, sliderCount);
    assert r.value.slider == SliderAt(r.value.clamped, g);
  }

  /** With g = 22, entering 15 while the slider is at its end clamps to 15,
      but a slider that reads 15/22 back as 14 (in doubles 22 * (15/22) is
      14.999999999999998, which the cast truncates) leaves 14 stored and shown. */
  lemma SliderOverwritesEntry()
    ensures var r := OnDisplayedLinesAction(Some(22), Finite(15.0), Fraction(1.0),
                                            pos => if pos == Fraction(15.0 / 22.0) then 14 else 0);
            r == Some(LinesUpdate(15, 14, 14, Fraction(15.0 / 22.0)))
  {
  }

  /** Entering again the number the field shows changes nothing, provided the
      slider reads its own position back exactly; in any case the second
      entry clamps to the shown count when that lies within [0, g]. */
  lemma EchoIsStable(g: nat, text: ParsedNumber, sliderBefore: SliderPosition, sliderCount: SliderPosition -> int)
    requires !text.Malformed?
    ensures var first := OnDisplayedLinesAction(Some(g), text, sliderBefore, sliderCount).value;
            var second := OnDisplayedLinesAction(Some(g), Finite(first.echoed as real), first.slider, sliderCount).value;
            && (0 <= first.echoed <= g ==> second.clamped == first.echoed)
            && (SliderReadsExactly(sliderCount, g) ==> second == first)
  {
    var first := OnDisplayedLinesAction(Some(g), text, sliderBefore, sliderCount).value;
    assert first.slider == SliderAt(first.clamped, g);
  }

  /** When processing finishes the slider is at its end and the field shows
      the full geometry count g; pressing Enter on that text keeps all g
      geometries displayed without moving the slider. A drawing with no
      geometries sends the slider to NaN, and its listener decides. */
  lemma FinishedCountIsAccepted(s: Orchestrator.State, g: nat, v: nat, sliderCount: SliderPosition -> int)
    ensures var r := Orchestrator.OnPlottingTaskStageFinished(s, Orchestrator.DoProcess, g, v);
            && |r.effects| > 1
            && r.effects[0] == Orchestrator.Ui(Orchestrator.SetSliderDisplayedLines(1.0))
            && r.effects[1] == Orchestrator.Ui(Orchestrator.SetDisplayedLinesText(g))
    ensures var e := OnDisplayedLinesAction(Some(g), Finite(g as real), Fraction(1.0), sliderCount);
            && (g > 0 ==> e == Some(LinesUpdate(g, g, g, Fraction(1.0))))
            && (g == 0 ==> e == Some(LinesUpdate(0, sliderCount(NotAPosition), sliderCount(NotAPosition), NotAPosition)))
  {
    Orchestrator.StageFinishedSchedules(s, Orchestrator.DoProcess, g, v);
  }

  // ---------------------------------------------------------------------------
  // Drawing-area size

  /** The width and height text fields. */
  datatype SizeFields = SizeFields(width: string, height: string)

  /** The rotate button swaps the two texts. */
  function Rotate(f: SizeFields): (r: SizeFields)
    ensures r.width == f.height && r.height == f.width
  {
    SizeFields(f.height, f.width)
  }

  /** Rotating twice restores both fields; rotating a square changes nothing. */
  lemma RotateTwiceRestores(f: SizeFields)
    ensures Rotate(Rotate(f)) == f
    ensures f.width == f.height ==> Rotate(f) == f
  {
  }

  // ---------------------------------------------------------------------------
  // Padding ganging

  datatype Side = LeftSide | RightSide | TopSide | BottomSide

  /** The shared padding text, the four padding text fields, and the sides
      whose text property is bidirectionally bound to the shared text. */
  datatype Padding = Padding(gang: string, left: string, right: string, top: string, bottom: string,
                             linked: set<Side>)

  function Text(p: Padding, side: Side): string
  {
    match side
    case LeftSide => p.left
    case RightSide => p.right
    case TopSide => p.top
    case BottomSide => p.bottom
  }

  function WithText(p: Padding, side: Side, t: string): (r: Padding)
    ensures Text(r, side) == t
    ensures forall other :: other != side ==> Text(r, other) == Text(p, other)
    ensures r.gang == p.gang && r.linked == p.linked
  {
    match side
    case LeftSide => p.(left := t)
    case RightSide => p.(right := t)
    case TopSide => p.(top := t)
    case BottomSide => p.(bottom := t)
  }

  /** Every bound side shows the shared text, as a bidirectional binding keeps it. */
  ghost predicate GangConsistent(p: Padding)
  {
    forall side :: side in p.linked ==> Text(p, side) == p.gang
  }

  /** updatePaddingBindings: ganging sets the shared text to "0" and binds all
      four sides to it (binding copies the shared text into the field);
      unganging unbinds all four and leaves every text as it is. */
  function UpdatePaddingBindings(p: Padding, ganged: bool): (r: Padding)
    ensures GangConsistent(r)
    ensures ganged ==> r.gang == "0" && r.linked == {LeftSide, RightSide, TopSide, BottomSide}
    ensures ganged ==> forall side :: Text(r, side) == "0"
    ensures !ganged ==> r.linked == {} && r.gang == p.gang
    ensures !ganged ==> forall side :: Text(r, side) == Text(p, side)
  {
    if ganged then Padding("0", "0", "0", "0", "0", {LeftSide, RightSide, TopSide, BottomSide})
    else p.(linked := {})
  }

  /** Typing into one padding field: through a binding the shared text and
      every other bound field follow; an unbound field changes alone. */
  function EditPadding(p: Padding, side: Side, t: string): (r: Padding)
    ensures Text(r, side) == t && r.linked == p.linked
    ensures side in p.linked ==> r.gang == t && forall other :: other in p.linked ==> Text(r, other) == t
    ensures side !in p.linked ==> r.gang == p.gang
    ensures forall other :: other != side && other !in p.linked ==> Text(r, other) == Text(p, other)
    ensures side !in p.linked ==> forall other :: other != side ==> Text(r, other) == Text(p, other)
  {
    if side in p.linked then
      var l := if LeftSide in p.linked then t else p.left;
      var rt := if RightSide in p.linked then t else p.right;
      var tp := if TopSide in p.linked then t else p.top;
      var b := if BottomSide in p.linked then t else p.bottom;
      Padding(t, l, rt, tp, b, p.linked)
    else WithText(p, side, t)
  }

  /** Ganging, unganging and typing all keep the bound fields equal to the
      shared text; while ganged all four sides always agree. */
  lemma PaddingStaysConsistent(p: Padding, side: Side, t: string, ganged: bool)
    requires GangConsistent(p)
    ensures GangConsistent(EditPadding(p, side, t))
    ensures GangConsistent(UpdatePaddingBindings(p, ganged))
    ensures p.linked == {LeftSide, RightSide, TopSide, BottomSide} ==>
              forall a, b :: Text(EditPadding(p, side, t), a) == Text(EditPadding(p, side, t), b)
  {
  }

  // ---------------------------------------------------------------------------
  // Serial-port selection

  datatype ComPort = ComPort(name: string)
  datatype GCodeBuilder = GCodeBuilder(port: ComPort)

  /** The port combo box listener: no name or an empty name clears the
      builder; any other name installs a builder on a port of exactly that name. */
  function SelectPort(newValue: Option<string>): (builder: Option<GCodeBuilder>)
    ensures builder.None? <==> newValue.None? || newValue.value == ""
    ensures builder.Some? ==> builder.value.port.name == newValue.value
  {
    if newValue.None? || newValue.value == "" then None
    else Some(GCodeBuilder(ComPort(newValue.value)))
  }

  // ---------------------------------------------------------------------------
  // Enabling of controls

  datatype Control =
    | StartPlottingButton
    | StopPlottingButton
    | StartSessionButton
    | PauseSessionButton
    | JogControl(button: JogButton)
    | ReturnHomeButton

  /** The task monitor's published flags, as the bindings read them. */
  datatype MonitorFlags = MonitorFlags(isPlotting: bool, isExporting: bool)

  /** The disable bindings: the plotting buttons follow isPlotting, the
      session buttons follow isExporting, the jog and home buttons follow
      whether a builder is selected. */
  function Disabled(c: Control, builder: Option<GCodeBuilder>, flags: MonitorFlags): (d: bool)
    ensures (c.JogControl? || c.ReturnHomeButton?) ==> (d <==> builder.None?)
    ensures (c.StartPlottingButton? || c.StopPlottingButton?) ==>
              (d <==> (flags.isPlotting <==> c.StartPlottingButton?))
    ensures (c.StartSessionButton? || c.PauseSessionButton?) ==>
              (d <==> (flags.isExporting <==> c.StartSessionButton?))
  {
    match c
    case StartPlottingButton => flags.isPlotting
    case StopPlottingButton => !flags.isPlotting
    case StartSessionButton => flags.isExporting
    case PauseSessionButton => !flags.isExporting
    case JogControl(_) => builder.None?
    case ReturnHomeButton => builder.None?
  }

  /** Of start and stop plotting exactly one is enabled, and likewise of start
      and pause session; which one depends only on the monitor. */
  lemma PairedButtonsAlternate(builder: Option<GCodeBuilder>, flags: MonitorFlags)
    ensures Disabled(StartPlottingButton, builder, flags) != Disabled(StopPlottingButton, builder, flags)
    ensures Disabled(StartSessionButton, builder, flags) != Disabled(PauseSessionButton, builder, flags)
    ensures !Disabled(StopPlottingButton, builder, flags) <==> flags.isPlotting
    ensures !Disabled(PauseSessionButton, builder, flags) <==> flags.isExporting
  {
  }

  /** After selecting a port, every jog button and the home button is enabled
      exactly when a non-empty port name was chosen, whatever the monitor says. */
  lemma JogEnabledIffPortNamed(newValue: Option<string>, flags: MonitorFlags, c: Control)
    requires c.JogControl? || c == ReturnHomeButton
    ensures !Disabled(c, SelectPort(newValue), flags) <==> newValue.Some? && newValue.value != ""
  {
  }
}
