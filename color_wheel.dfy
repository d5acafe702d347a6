/** The stick-driven colour wheel: it opens when the stick leaves an activation
    threshold, tracks the sector the stick points at, and on release asks the
    colour manager for the selected colour. */
module ColorWheel {
  import opened Engine
  import ColorLayers

  /** The default magnitude above which a closed wheel opens. */
  const ActivationThreshold: real := 0.3
  /** The default magnitude below which an open wheel closes. */
  const SelectionDeadzone: real := 0.2

  /** The engine's blue, red, green and yellow, one per colour index. */
  const DefaultAvailableColors: seq<Color> := [
    Color(0.0, 0.0, 1.0, 1.0),
    Color(1.0, 0.0, 0.0, 1.0),
    Color(0.0, 1.0, 0.0, 1.0),
    Color(1.0, 0.92, 0.016, 1.0)
  ]

  /** An angle in degrees from a two-argument arctangent, moved into [0, 360) when
      it is negative. */
  function NormalizeAngle(angle: real): (a: real)
    ensures angle >= 0.0 ==> a == angle
    ensures angle < 0.0 ==> a == angle + 360.0
    ensures -360.0 <= angle < 360.0 ==> 0.0 <= a < 360.0
  {
    if angle < 0.0 then angle + 360.0 else angle
  }

  /** The colour index of the sector the stick points at: top is 1, left 0, bottom
      3 and everything else (the right-hand quarter) 2. */
  function SectorIndex(angle: real): (r: int)
    ensures 0 <= r <= 3
    ensures var a := NormalizeAngle(angle);
      (r == 1 <==> 45.0 <= a < 135.0) &&
      (r == 0 <==> 135.0 <= a < 225.0) &&
      (r == 3 <==> 225.0 <= a < 315.0) &&
      (r == 2 <==> a < 45.0 || a >= 315.0)
  {
    var a := NormalizeAngle(angle);
    if 45.0 <= a < 135.0 then 1
    else if 135.0 <= a < 225.0 then 0
    else if 225.0 <= a < 315.0 then 3
    else 2
  }

  /** The wheel's own state. */
  datatype Wheel = Wheel(isWheelActive: bool, currentColorIndex: int)

  /** Closed with no selection. */
  const Closed := Wheel(false, -1)

  /** A selection is -1 ("none") or a sector index, and a closed wheel has none. */
  predicate WheelValid(w: Wheel)
  {
    -1 <= w.currentColorIndex <= 3 && (!w.isWheelActive ==> w.currentColorIndex == -1)
  }

  /** One frame of stick input: the new wheel state, and the selection handed on
      when the wheel closed with one. */
  datatype Step = Step(wheel: Wheel, applied: Option<int>)

  function HandleInput(activationThreshold: real, selectionDeadzone: real,
                       w: Wheel, magnitude: real, angle: real): (r: Step)
    ensures r.wheel.isWheelActive && !w.isWheelActive <==> !w.isWheelActive && magnitude > activationThreshold
    ensures !r.wheel.isWheelActive && w.isWheelActive <==> w.isWheelActive && magnitude < selectionDeadzone
    ensures r.applied.Some? <==> w.isWheelActive && magnitude < selectionDeadzone && w.currentColorIndex >= 0
    ensures r.applied.Some? ==> r.applied.value == w.currentColorIndex
    ensures r.wheel.isWheelActive && magnitude > selectionDeadzone ==>
      r.wheel.currentColorIndex == SectorIndex(angle)
    ensures !r.wheel.isWheelActive ==> r.wheel.currentColorIndex == (if w.isWheelActive then -1 else w.currentColorIndex)
    ensures r.wheel.isWheelActive && magnitude <= selectionDeadzone ==> r.wheel.currentColorIndex == w.currentColorIndex
    ensures WheelValid(w) ==> WheelValid(r.wheel)
  {
    var toggled :=
      if magnitude > activationThreshold && !w.isWheelActive then Step(w.(isWheelActive := true), None)
      else if magnitude < selectionDeadzone && w.isWheelActive then
        Step(Closed, if w.currentColorIndex >= 0 then Some(w.currentColorIndex) else None)
      else Step(w, None);
    if toggled.wheel.isWheelActive && magnitude > selectionDeadzone
    then toggled.(wheel := toggled.wheel.(currentColorIndex := SectorIndex(angle)))
    else toggled
  }

  /** Releasing the stick after it pointed at a sector hands that sector on and
      leaves the wheel closed with no selection. */
  lemma SelectThenRelease(w: Wheel, angle: real, magnitude: real, release: real)
    requires WheelValid(w) && magnitude > ActivationThreshold && 0.0 <= release < SelectionDeadzone
    ensures var s1 := HandleInput(ActivationThreshold, SelectionDeadzone, w, magnitude, angle);
      var s2 := HandleInput(ActivationThreshold, SelectionDeadzone, s1.wheel, release, angle);
      s1.applied == None && s2.wheel == Closed && s2.applied == Some(SectorIndex(angle))
  {
  }

  /** The colour for the manager's active index: white without a manager or for an
      index outside the available colours. */
  function CurrentColor(availableColors: seq<Color>, activeIndex: Option<int>): (c: Color)
    ensures activeIndex.Some? && 0 <= activeIndex.value < |availableColors| ==>
      c == availableColors[activeIndex.value]
    ensures activeIndex.None? || !(0 <= activeIndex.value < |availableColors|) ==> c == White
  {
    if activeIndex.Some? && 0 <= activeIndex.value < |availableColors|
    then availableColors[activeIndex.value] else White
  }

  class ColorWheel {
    const activationThreshold: real
    const selectionDeadzone: real
    const availableColors: seq<Color>
    /** Whether the input action is assigned and the wheel UI object exists. */
    const hasAction: bool
    const hasUI: bool
    var isWheelActive: bool
    var currentColorIndex: int
    var uiShown: bool

    function State(): Wheel
      reads this
    {
      Wheel(isWheelActive, currentColorIndex)
    }

    ghost predicate Valid()
      reads this
    {
      WheelValid(State())
    }

    /** A wheel as the scene configures it (`ActivationThreshold`,
        `SelectionDeadzone` and `DefaultAvailableColors` are the serialized defaults). */
    constructor (activationThreshold: real, selectionDeadzone: real, availableColors: seq<Color>,
                 hasAction: bool, hasUI: bool)
      ensures this.activationThreshold == activationThreshold && this.selectionDeadzone == selectionDeadzone
      ensures this.availableColors == availableColors
      ensures this.hasAction == hasAction && this.hasUI == hasUI
      ensures State() == Closed && Valid() && !uiShown
    {
      this.activationThreshold, this.selectionDeadzone := activationThreshold, selectionDeadzone;
      this.availableColors := availableColors;
      this.hasAction, this.hasUI := hasAction, hasUI;
      isWheelActive, currentColorIndex, uiShown := false, -1, false;
    }

    method Start()
      modifies this`uiShown
      ensures uiShown == (old(uiShown) && !hasUI)
    {
      if hasUI {
        uiShown := false;
      }
    }

    /** Only the owning player's wheel reads input. */
    method Update(isOwner: bool, magnitude: real, angle: real, managerExists: bool, managerSpawned: bool)
      returns (request: Option<int>)
      requires Valid()
      modifies this
      ensures Valid()
      ensures !isOwner || !hasAction ==> State() == old(State()) && uiShown == old(uiShown) && request == None
      ensures isOwner && hasAction ==>
        var step := HandleInput(activationThreshold, selectionDeadzone, old(State()), magnitude, angle);
        State() == step.wheel &&
        request == (if step.applied.Some? then SelectionRequest(availableColors, step.applied.value, managerExists, managerSpawned) else None)
      ensures isOwner && hasAction && hasUI && isWheelActive != old(isWheelActive) ==> uiShown == isWheelActive
      ensures isWheelActive == old(isWheelActive) || !hasUI ==> uiShown == old(uiShown)
    {
      request := None;
      if !isOwner {
        return;
      }
      request := HandleColorWheelInput(magnitude, angle, managerExists, managerSpawned);
    }

    /** One frame of input; `angle` is the stick direction in degrees. */
    method HandleColorWheelInput(magnitude: real, angle: real, managerExists: bool, managerSpawned: bool)
      returns (request: Option<int>)
      requires Valid()
      modifies this
      ensures Valid()
      ensures !hasAction ==> State() == old(State()) && uiShown == old(uiShown) && request == None
      ensures hasAction ==>
        var step := HandleInput(activationThreshold, selectionDeadzone, old(State()), magnitude, angle);
        State() == step.wheel &&
        request == (if step.applied.Some? then SelectionRequest(availableColors, step.applied.value, managerExists, managerSpawned) else None)
      ensures hasAction && hasUI && isWheelActive != old(isWheelActive) ==> uiShown == isWheelActive
      ensures isWheelActive == old(isWheelActive) || !hasUI ==> uiShown == old(uiShown)
    {
      request := None;
      if !hasAction {
        return;
      }
      if magnitude > activationThreshold && !isWheelActive {
        OpenColorWheel();
      } else if magnitude < selectionDeadzone && isWheelActive {
        request := CloseColorWheel(managerExists, managerSpawned);
      }
      if isWheelActive && magnitude > selectionDeadzone {
        UpdateColorSelection(angle);
      }
    }

    method OpenColorWheel()
      modifies this`isWheelActive, this`uiShown
      ensures isWheelActive && uiShown == (old(uiShown) || hasUI)
    {
      isWheelActive := true;
      if hasUI {
        uiShown := true;
      }
    }

    /** Closing hands on a selection if there is one and always clears it. */
    method CloseColorWheel(managerExists: bool, managerSpawned: bool) returns (request: Option<int>)
      modifies this`isWheelActive, this`uiShown, this`currentColorIndex
      ensures !isWheelActive && currentColorIndex == -1 && uiShown == (old(uiShown) && !hasUI)
      ensures request == if old(currentColorIndex) >= 0
        then SelectionRequest(availableColors, old(currentColorIndex), managerExists, managerSpawned) else None
    {
      isWheelActive := false;
      if hasUI {
        uiShown := false;
      }
      request := None;
      if currentColorIndex >= 0 {
        request := ApplyColorSelection(currentColorIndex, managerExists, managerSpawned);
      }
      currentColorIndex := -1;
    }

    method UpdateColorSelection(angle: real)
      modifies this`currentColorIndex
      ensures currentColorIndex == SectorIndex(angle)
    {
      var colorIndex := SectorIndex(angle);
      if colorIndex != currentColorIndex {
        currentColorIndex := colorIndex;
      }
    }

    /** The colour change requested from the manager: none for an index outside the
        available colours, a missing manager or one not yet spawned. */
    method ApplyColorSelection(colorIndex: int, managerExists: bool, managerSpawned: bool)
      returns (request: Option<int>)
      ensures request == SelectionRequest(availableColors, colorIndex, managerExists, managerSpawned)
    {
      if colorIndex < 0 || colorIndex >= |availableColors| {
        return None;
      }
      if !managerExists {
        return None;
      }
      request := if managerSpawned then Some(colorIndex) else None;
    }

    function GetCurrentColor(manager: ColorLayers.ColorManager?): Color
      reads this, manager
    {
      CurrentColor(availableColors, if manager == null then None else Some(manager.activeColorIndex))
    }

    /** The manager's active index, or 0 without a manager. */
    function GetCurrentColorIndex(manager: ColorLayers.ColorManager?): (r: int)
      reads manager
      ensures manager != null ==> r == manager.activeColorIndex
      ensures manager == null ==> r == 0
    {
      if manager != null then manager.GetActiveColorIndex() else 0
    }
  }

  /** The colour change a selection asks for. */
  function SelectionRequest(availableColors: seq<Color>, colorIndex: int, managerExists: bool, managerSpawned: bool)
    : (r: Option<int>)
    ensures r.Some? <==> 0 <= colorIndex < |availableColors| && managerExists && managerSpawned
    ensures r.Some? ==> r.value == colorIndex
  {
    if 0 <= colorIndex < |availableColors| && managerExists && managerSpawned then Some(colorIndex) else None
  }
}
