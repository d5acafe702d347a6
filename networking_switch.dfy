/** A player-operated switch (the compact variant). It proposes a new state to the
    puzzle manager from the last state the server confirmed, and changes its own
    `isActive` flag only when the manager's change event arrives. */
module NetworkingSwitch {
  import opened Engine
  import opened Puzzle

  /** The server call a switch issues: set switch `switchId` to `state`. */
  datatype SwitchRequest = ActivateSwitchRequest(switchId: string, state: bool)

  /** The state a switch proposes, given whether it toggles and the state the server
      last confirmed. A one-shot switch that is already active proposes nothing;
      otherwise the proposal is always the opposite of the confirmed state. */
  function ProposedState(isToggle: bool, isActive: bool): (r: Option<bool>)
    ensures r.None? <==> !isToggle && isActive
    ensures r.Some? ==> r.value == !isActive
    ensures !isToggle && r.Some? ==> r.value
  {
    if !isToggle && isActive then None
    else Some(if isToggle then !isActive else true)
  }

  /** Only switches with id "A" or "B" register a handler with the manager. */
  predicate Subscribes(switchId: string)
  {
    switchId == "A" || switchId == "B"
  }

  /** The value a manager event hands to a switch with this id, if the event is the
      one that switch is registered for. */
  function SwitchEventValue(switchId: string, e: PuzzleEvent): (r: Option<bool>)
    ensures r.Some? ==> Subscribes(switchId)
    ensures r.Some? <==> (switchId == "A" && e.SwitchAChanged?) || (switchId == "B" && e.SwitchBChanged?)
    ensures r.Some? ==> r.value == e.switchValue
  {
    match e
    case SwitchAChanged(v) => if switchId == "A" then Some(v) else None
    case SwitchBChanged(v) => if switchId == "B" then Some(v) else None
    case _ => None
  }

  class NetworkedSwitch {
    const switchId: string
    const isToggle: bool
    var isPlayerNearby: bool
    var isActive: bool
    /** Whether `OnSwitchStateChanged` is registered with the manager's event. */
    var subscribed: bool

    constructor (switchId: string, isToggle: bool)
      ensures this.switchId == switchId && this.isToggle == isToggle
      ensures !isPlayerNearby && !isActive && !subscribed
    {
      this.switchId := switchId;
      this.isToggle := isToggle;
      isPlayerNearby, isActive, subscribed := false, false, false;
    }

    /** Registers the handler when the manager exists; ids other than "A" and "B"
        register nothing. */
    method OnEnable(managerExists: bool)
      modifies this`subscribed
      ensures subscribed == (old(subscribed) || (managerExists && Subscribes(switchId)))
    {
      if managerExists {
        SubscribeToEvents();
      }
    }

    method OnDisable(managerExists: bool)
      modifies this`subscribed
      ensures subscribed == (old(subscribed) && !(managerExists && Subscribes(switchId)))
    {
      if managerExists {
        UnsubscribeFromEvents();
      }
    }

    method SubscribeToEvents()
      modifies this`subscribed
      ensures subscribed == (old(subscribed) || Subscribes(switchId))
    {
      match switchId {
        case "A" => subscribed := true;
        case "B" => subscribed := true;
        case _ =>
      }
    }

    method UnsubscribeFromEvents()
      modifies this`subscribed
      ensures subscribed == (old(subscribed) && !Subscribes(switchId))
    {
      match switchId {
        case "A" => subscribed := false;
        case "B" => subscribed := false;
        case _ =>
      }
    }

    /** The per-frame hook: an activation is attempted only while a player is
        nearby, a keyboard exists and E was pressed this frame. */
    method Update(keyboardPresent: bool, ePressedThisFrame: bool, managerExists: bool)
      returns (request: Option<SwitchRequest>)
      ensures !(isPlayerNearby && keyboardPresent && ePressedThisFrame) ==> request == None
      ensures isPlayerNearby && keyboardPresent && ePressedThisFrame ==>
        (request.Some? <==> managerExists && (isToggle || !isActive))
      ensures request.Some? ==> request.value == ActivateSwitchRequest(switchId, !isActive)
    {
      request := None;
      if isPlayerNearby && keyboardPresent && ePressedThisFrame {
        request := ActivateSwitch(managerExists);
      }
    }

    /** Proposes a state to the manager; `isActive` itself is left alone. An active
        one-shot switch, or a missing manager, sends nothing. */
    method ActivateSwitch(managerExists: bool) returns (request: Option<SwitchRequest>)
      ensures request.Some? <==> managerExists && (isToggle || !isActive)
      ensures request.Some? ==> request.value == ActivateSwitchRequest(switchId, !isActive)
    {
      request := None;
      var newState := ProposedState(isToggle, isActive);
      if newState.None? {
        return;
      }
      if managerExists {
        request := Some(ActivateSwitchRequest(switchId, newState.value));
      }
    }

    /** The handler of the manager's switch event: adopts the confirmed state. */
    method OnSwitchStateChanged(newState: bool)
      modifies this`isActive
      ensures isActive == newState
    {
      isActive := newState;
    }

    /** Delivery of one manager event: the handler runs only when it is registered
        and the event is the one this switch's id is registered for. */
    method Receive(e: PuzzleEvent)
      modifies this`isActive
      ensures subscribed && SwitchEventValue(switchId, e).Some? ==>
        isActive == SwitchEventValue(switchId, e).value
      ensures !(subscribed && SwitchEventValue(switchId, e).Some?) ==> isActive == old(isActive)
      ensures !Subscribes(switchId) ==> isActive == old(isActive)
    {
      var v := SwitchEventValue(switchId, e);
      if subscribed && v.Some? {
        OnSwitchStateChanged(v.value);
      }
    }

    /** Only colliders tagged "Player" make a player nearby. */
    method OnTriggerEnter2D(tag: string)
      modifies this`isPlayerNearby
      ensures isPlayerNearby == (tag == "Player" || old(isPlayerNearby))
    {
      if tag == "Player" {
        isPlayerNearby := true;
      }
    }

    method OnTriggerExit2D(tag: string)
      modifies this`isPlayerNearby
      ensures isPlayerNearby == (tag != "Player" && old(isPlayerNearby))
    {
      if tag == "Player" {
        isPlayerNearby := false;
      }
    }
  }
}
