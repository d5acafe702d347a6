/** The logging variant of the player-operated switch. Its decisions are those of
    the compact variant; the branches it reports separately (an ignored press, a
    missing keyboard, a missing manager) are made visible as outcomes. */
module PuzzleSwitch {
  import opened Engine
  import opened Puzzle
  import NS = NetworkingSwitch

  /** What one activation attempt did. */
  datatype Activation =
    | AlreadyActive                        // an active one-shot switch ignores the press
    | Sent(request: NS.SwitchRequest)      // the proposal went to the manager
    | ManagerMissing                       // nothing could be sent

  /** What one frame of the switch did. */
  datatype FrameOutcome =
    | Idle                                 // no player nearby, or E not pressed
    | KeyboardMissing                      // a player is nearby but there is no keyboard
    | Attempted(activation: Activation)

  /** The outcome of an activation attempt: an active one-shot switch is ignored;
      otherwise the opposite of the confirmed state is proposed, and it is sent
      exactly when the manager exists. */
  function Attempt(switchId: string, isToggle: bool, isActive: bool, managerExists: bool)
    : (r: Activation)
    ensures r == AlreadyActive <==> !isToggle && isActive
    ensures r.Sent? <==> managerExists && (isToggle || !isActive)
    ensures r == ManagerMissing <==> !managerExists && (isToggle || !isActive)
    ensures r.Sent? ==> r.request == NS.ActivateSwitchRequest(switchId, !isActive)
  {
    var newState := NS.ProposedState(isToggle, isActive);
    if newState.None? then AlreadyActive
    else if managerExists then Sent(NS.ActivateSwitchRequest(switchId, newState.value))
    else ManagerMissing
  }

  class NetworkedSwitch {
    const switchId: string
    const isToggle: bool
    var isPlayerNearby: bool
    var isActive: bool
    /** Whether `OnSwitchStateChanged` is registered with the manager's event. */
    var subscribed: bool

    constructor (switchId: string, isToggle: bool)
      ensures this.switchId == switchId && this.isToggle == isToggle
      ensures !isPlayerNearby && !isActive && !subscribed
    {
      this.switchId := switchId;
      this.isToggle := isToggle;
      isPlayerNearby, isActive, subscribed := false, false, false;
    }

    method OnEnable(managerExists: bool)
      modifies this`subscribed
      ensures subscribed == (old(subscribed) || (managerExists && NS.Subscribes(switchId)))
    {
      if managerExists {
        match switchId {
          case "A" => subscribed := true;
          case "B" => subscribed := true;
          case _ =>
        }
      }
    }

    method OnDisable(managerExists: bool)
      modifies this`subscribed
      ensures subscribed == (old(subscribed) && !(managerExists && NS.Subscribes(switchId)))
    {
      if managerExists {
        match switchId {
          case "A" => subscribed := false;
          case "B" => subscribed := false;
          case _ =>
        }
      }
    }

    /** The per-frame hook: with a player nearby it first needs a keyboard, then a
        press of E this frame. */
    method Update(keyboardPresent: bool, ePressedThisFrame: bool, managerExists: bool)
      returns (outcome: FrameOutcome)
      ensures !isPlayerNearby ==> outcome == Idle
      ensures isPlayerNearby && !keyboardPresent ==> outcome == KeyboardMissing
      ensures isPlayerNearby && keyboardPresent && !ePressedThisFrame ==> outcome == Idle
      ensures isPlayerNearby && keyboardPresent && ePressedThisFrame ==>
        outcome == Attempted(Attempt(switchId, isToggle, isActive, managerExists))
    {
      outcome := Idle;
      if isPlayerNearby {
        if !keyboardPresent {
          return KeyboardMissing;
        }
        if ePressedThisFrame {
          var a := ActivateSwitch(managerExists);
          outcome := Attempted(a);
        }
      }
    }

    /** One activation attempt; `isActive` itself is left alone. */
    method ActivateSwitch(managerExists: bool) returns (result: Activation)
      ensures result == Attempt(switchId, isToggle, isActive, managerExists)
    {
      if !isToggle && isActive {
        return AlreadyActive;
      }
      var newState := if isToggle then !isActive else true;
      if managerExists {
        result := Sent(NS.ActivateSwitchRequest(switchId, newState));
      } else {
        result := ManagerMissing;
      }
    }

    /** The handler of the manager's switch event: adopts the confirmed state. */
    method OnSwitchStateChanged(newState: bool)
      modifies this`isActive
      ensures isActive == newState
    {
      isActive := newState;
    }

    /** Delivery of one manager event to this switch's registered handler. */
    method Receive(e: PuzzleEvent)
      modifies this`isActive
      ensures subscribed && NS.SwitchEventValue(switchId, e).Some? ==>
        isActive == NS.SwitchEventValue(switchId, e).value
      ensures !(subscribed && NS.SwitchEventValue(switchId, e).Some?) ==> isActive == old(isActive)
    {
      var v := NS.SwitchEventValue(switchId, e);
      if subscribed && v.Some? {
        OnSwitchStateChanged(v.value);
      }
    }

    /** Only colliders tagged "Player" make a player nearby. */
    method OnTriggerEnter2D(tag: string)
      modifies this`isPlayerNearby
      ensures isPlayerNearby == (tag == "Player" || old(isPlayerNearby))
    {
      if tag == "Player" {
        isPlayerNearby := true;
      }
    }

    method OnTriggerExit2D(tag: string)
      modifies this`isPlayerNearby
      ensures isPlayerNearby == (tag != "Player" && old(isPlayerNearby))
    {
      if tag == "Player" {
        isPlayerNearby := false;
      }
    }
  }
}
