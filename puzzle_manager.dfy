/** The cross-level puzzle store: four switch variables, two door variables and a
    colour index, all owned by the server and written through id-dispatched
    server calls, plus the per-tick rule that cross-wires switches to doors. */
module Puzzle {
  import opened Engine

  /** The values of the networked variables the puzzle manager owns. */
  datatype PuzzleState = PuzzleState(
    switchA: bool, switchB: bool, switchC: bool, switchD: bool,
    doorAOpen: bool, doorBOpen: bool,
    currentColorIndex: int)

  /** Every variable starts false, the colour index at 0. */
  const Initial := PuzzleState(false, false, false, false, false, false, 0)

  /** The change events the manager raises for subscribers. Only switches A and B,
      the two doors and the colour index are wired to an event. */
  datatype PuzzleEvent =
    | SwitchAChanged(switchValue: bool)
    | SwitchBChanged(switchValue: bool)
    | DoorAChanged(doorValue: bool)
    | DoorBChanged(doorValue: bool)
    | ColorChanged(colorIndex: int)

  /** The switch variable a switch id names, if it names one. */
  function SwitchNamed(s: PuzzleState, id: string): Option<bool>
  {
    match id
    case "A" => Some(s.switchA)
    case "B" => Some(s.switchB)
    case "C" => Some(s.switchC)
    case "D" => Some(s.switchD)
    case _ => None
  }

  /** The door variable a door id names, if it names one. */
  function DoorNamed(s: PuzzleState, id: string): Option<bool>
  {
    match id
    case "A" => Some(s.doorAOpen)
    case "B" => Some(s.doorBOpen)
    case _ => None
  }

  /** The part of the state that raises events when it changes. */
  function Observed(s: PuzzleState): (bool, bool, bool, bool, int)
  {
    (s.switchA, s.switchB, s.doorAOpen, s.doorBOpen, s.currentColorIndex)
  }

  /** The new value an event carries matches the variable it reports on. */
  predicate Reports(e: PuzzleEvent, s: PuzzleState)
  {
    match e
    case SwitchAChanged(v) => v == s.switchA
    case SwitchBChanged(v) => v == s.switchB
    case DoorAChanged(v) => v == s.doorAOpen
    case DoorBChanged(v) => v == s.doorBOpen
    case ColorChanged(c) => c == s.currentColorIndex
  }

  /** The events raised when the manager's state goes from `before` to `after`:
      a networked variable notifies its subscribers only when its value changes.
      Events of different variables are unordered with respect to each other. */
  function ChangeEvents(before: PuzzleState, after: PuzzleState): set<PuzzleEvent>
  {
    (if before.switchA != after.switchA then {SwitchAChanged(after.switchA)} else {}) +
    (if before.switchB != after.switchB then {SwitchBChanged(after.switchB)} else {}) +
    (if before.doorAOpen != after.doorAOpen then {DoorAChanged(after.doorAOpen)} else {}) +
    (if before.doorBOpen != after.doorBOpen then {DoorBChanged(after.doorBOpen)} else {}) +
    (if before.currentColorIndex != after.currentColorIndex
     then {ColorChanged(after.currentColorIndex)} else {})
  }

  /** A write raises an event exactly when an observed variable changed. */
  lemma ChangeEventsExactlyOnChange(before: PuzzleState, after: PuzzleState)
    ensures ChangeEvents(before, after) == {} <==> Observed(before) == Observed(after)
  {
    var r := ChangeEvents(before, after);
    if before.switchA != after.switchA {
      assert SwitchAChanged(after.switchA) in r;
    } else if before.switchB != after.switchB {
      assert SwitchBChanged(after.switchB) in r;
    } else if before.doorAOpen != after.doorAOpen {
      assert DoorAChanged(after.doorAOpen) in r;
    } else if before.doorBOpen != after.doorBOpen {
      assert DoorBChanged(after.doorBOpen) in r;
    } else if before.currentColorIndex != after.currentColorIndex {
      assert ColorChanged(after.currentColorIndex) in r;
    }
  }

  /** Each event carries the new value of the variable it reports on. */
  lemma ChangeEventsReport(before: PuzzleState, after: PuzzleState)
    ensures forall e :: e in ChangeEvents(before, after) ==> Reports(e, after)
  {
  }

  /** Writing the value a variable already holds raises no event: a second
      identical switch call is silent. */
  lemma RepeatedSwitchSilent(s: PuzzleState, switchId: string, state: bool)
    ensures var s1 := ActivateSwitch(s, switchId, state);
      ChangeEvents(s1, ActivateSwitch(s1, switchId, state)) == {}
  {
    var s1 := ActivateSwitch(s, switchId, state);
    assert ActivateSwitch(s1, switchId, state) == s1;
  }

  /** A second identical door call is silent. */
  lemma RepeatedDoorSilent(s: PuzzleState, doorId: string, open: bool)
    ensures var s1 := SetDoorState(s, doorId, open);
      ChangeEvents(s1, SetDoorState(s1, doorId, open)) == {}
  {
    var s1 := SetDoorState(s, doorId, open);
    assert SetDoorState(s1, doorId, open) == s1;
  }

  /** A second identical colour call is silent. */
  lemma RepeatedColorSilent(s: PuzzleState, colorIndex: int)
    ensures var s1 := ChangeColor(s, colorIndex);
      ChangeEvents(s1, ChangeColor(s1, colorIndex)) == {}
  {
    var s1 := ChangeColor(s, colorIndex);
    assert ChangeColor(s1, colorIndex) == s1;
  }

  /** The server call that sets a switch: exactly the switch the id names takes the
      new state, and an unknown id changes nothing. */
  function ActivateSwitch(s: PuzzleState, switchId: string, state: bool): (r: PuzzleState)
    ensures SwitchNamed(s, switchId).Some? ==> SwitchNamed(r, switchId) == Some(state)
    ensures forall id :: id != switchId ==> SwitchNamed(r, id) == SwitchNamed(s, id)
    ensures DoorNamed(r, "A") == DoorNamed(s, "A") && DoorNamed(r, "B") == DoorNamed(s, "B")
    ensures r.currentColorIndex == s.currentColorIndex
    ensures SwitchNamed(s, switchId).None? ==> r == s
  {
    match switchId
    case "A" => s.(switchA := state)
    case "B" => s.(switchB := state)
    case "C" => s.(switchC := state)
    case "D" => s.(switchD := state)
    case _ => s
  }

  /** The server call that sets a door: only ids "A" and "B" write, and only
      their own door variable. */
  function SetDoorState(s: PuzzleState, doorId: string, open: bool): (r: PuzzleState)
    ensures DoorNamed(s, doorId).Some? ==> DoorNamed(r, doorId) == Some(open)
    ensures forall id :: id != doorId ==> DoorNamed(r, id) == DoorNamed(s, id)
    ensures forall id :: SwitchNamed(r, id) == SwitchNamed(s, id)
    ensures r.currentColorIndex == s.currentColorIndex
    ensures DoorNamed(s, doorId).None? ==> r == s
  {
    match doorId
    case "A" => s.(doorAOpen := open)
    case "B" => s.(doorBOpen := open)
    case _ => s
  }

  /** The server call that sets the colour index: no range check, nothing else
      is touched. */
  function ChangeColor(s: PuzzleState, colorIndex: int): (r: PuzzleState)
    ensures r.currentColorIndex == colorIndex
    ensures r.(currentColorIndex := s.currentColorIndex) == s
  {
    s.(currentColorIndex := colorIndex)
  }

  /** One server tick of the cross-level rule: door B follows switch A and door A
      follows switch B; the switches and the colour index are never written. */
  function CrossLevelUpdate(s: PuzzleState): (r: PuzzleState)
    ensures r.doorBOpen == s.switchA && r.doorAOpen == s.switchB
    ensures forall id :: SwitchNamed(r, id) == SwitchNamed(s, id)
    ensures r.currentColorIndex == s.currentColorIndex
  {
    var afterB := if s.doorBOpen != s.switchA then s.(doorBOpen := s.switchA) else s;
    if afterB.doorAOpen != afterB.switchB then afterB.(doorAOpen := afterB.switchB) else afterB
  }

  /** A tick writes a door only when it differs from its switch, so the events it
      raises are exactly those of the doors that were out of step. */
  lemma CrossLevelEvents(s: PuzzleState)
    ensures ChangeEvents(s, CrossLevelUpdate(s)) ==
      (if s.doorBOpen != s.switchA then {DoorBChanged(s.switchA)} else {}) +
      (if s.doorAOpen != s.switchB then {DoorAChanged(s.switchB)} else {})
  {
  }

  /** Running the tick twice is the same as running it once, and the second run
      raises no event. */
  lemma CrossLevelIdempotent(s: PuzzleState)
    ensures CrossLevelUpdate(CrossLevelUpdate(s)) == CrossLevelUpdate(s)
    ensures ChangeEvents(CrossLevelUpdate(s), CrossLevelUpdate(CrossLevelUpdate(s))) == {}
  {
  }

  /** The scene object that owns the puzzle variables. Every server call returns
      the change events its write raised. */
  class PuzzleManager {
    var switchA: bool
    var switchB: bool
    var switchC: bool
    var switchD: bool
    var doorAOpen: bool
    var doorBOpen: bool
    var currentColorIndex: int

    function State(): PuzzleState
      reads this
    {
      PuzzleState(switchA, switchB, switchC, switchD, doorAOpen, doorBOpen, currentColorIndex)
    }

    constructor ()
      ensures State() == Initial
    {
      switchA, switchB, switchC, switchD := false, false, false, false;
      doorAOpen, doorBOpen := false, false;
      currentColorIndex := 0;
    }

    method ActivateSwitchServerRpc(switchId: string, state: bool) returns (events: set<PuzzleEvent>)
      modifies this
      ensures State() == ActivateSwitch(old(State()), switchId, state)
      ensures events == ChangeEvents(old(State()), State())
    {
      var before := State();
      match switchId {
        case "A" => switchA := state;
        case "B" => switchB := state;
        case "C" => switchC := state;
        case "D" => switchD := state;
        case _ =>
      }
      assert State() == ActivateSwitch(before, switchId, state);
      events := ChangeEvents(before, State());
    }

    method SetDoorStateServerRpc(doorId: string, open: bool) returns (events: set<PuzzleEvent>)
      modifies this
      ensures State() == SetDoorState(old(State()), doorId, open)
      ensures events == ChangeEvents(old(State()), State())
    {
      var before := State();
      match doorId {
        case "A" => doorAOpen := open;
        case "B" => doorBOpen := open;
        case _ =>
      }
      events := ChangeEvents(before, State());
    }

    method ChangeColorServerRpc(colorIndex: int) returns (events: set<PuzzleEvent>)
      modifies this
      ensures State() == ChangeColor(old(State()), colorIndex)
      ensures events == ChangeEvents(old(State()), State())
    {
      var before := State();
      currentColorIndex := colorIndex;
      events := ChangeEvents(before, State());
    }

    /** The per-frame hook: the cross-level rule runs on the server only. */
    method Update(isServer: bool) returns (events: set<PuzzleEvent>)
      modifies this
      ensures State() == if isServer then CrossLevelUpdate(old(State())) else old(State())
      ensures events == ChangeEvents(old(State()), State())
    {
      if !isServer {
        return {};
      }
      events := UpdateCrossLevelPuzzles();
    }

    method UpdateCrossLevelPuzzles() returns (events: set<PuzzleEvent>)
      modifies this
      ensures State() == CrossLevelUpdate(old(State()))
      ensures events == ChangeEvents(old(State()), State())
    {
      var before := State();
      if doorBOpen != switchA {
        doorBOpen := switchA;
      }
      if doorAOpen != switchB {
        doorAOpen := switchB;
      }
      events := ChangeEvents(before, State());
    }
  }
}
