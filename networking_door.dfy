/** A door driven by the puzzle manager's door variables (the compact variant).
    Only its logical flags are modelled: `isOpen` follows the door variable
    edge-triggered, `isMoving` stays set until the door reaches its target, and
    the collider is then enabled exactly when the door is closed. */
module NetworkingDoor {
  import opened Engine
  import opened Puzzle

  /** A door registers with the manager's event only for ids "A" and "B". */
  predicate Subscribes(doorId: string)
  {
    doorId == "A" || doorId == "B"
  }

  /** The value a manager event hands to a door with this id, if the event is the
      one that door is registered for. */
  function DoorEventValue(doorId: string, e: PuzzleEvent): (r: Option<bool>)
    ensures r.Some? ==> Subscribes(doorId)
    ensures r.Some? <==> (doorId == "A" && e.DoorAChanged?) || (doorId == "B" && e.DoorBChanged?)
    ensures r.Some? ==> r.value == e.doorValue
  {
    match e
    case DoorAChanged(v) => if doorId == "A" then Some(v) else None
    case DoorBChanged(v) => if doorId == "B" then Some(v) else None
    case _ => None
  }

  /** Whether a door that subscribes late should open at once: "A" reads door A's
      variable, "B" door B's, any other id is closed. */
  function InitialDoorState(doorId: string, s: PuzzleState): (shouldBeOpen: bool)
    ensures shouldBeOpen <==> DoorNamed(s, doorId) == Some(true)
  {
    match doorId
    case "A" => s.doorAOpen
    case "B" => s.doorBOpen
    case _ => false
  }

  class NetworkedDoor {
    const doorId: string
    /** Whether a collider component is attached. */
    const hasCollider: bool
    var colliderEnabled: bool
    var isOpen: bool
    var isMoving: bool
    /** Whether `OnDoorStateChanged` is registered with the manager's event. */
    var subscribed: bool
    /** Whether the coroutine that waits for the manager is pending. */
    var waitingForManager: bool

    constructor (doorId: string, hasCollider: bool, colliderEnabled: bool)
      ensures this.doorId == doorId && this.hasCollider == hasCollider
      ensures this.colliderEnabled == colliderEnabled
      ensures !isOpen && !isMoving && !subscribed && !waitingForManager
    {
      this.doorId := doorId;
      this.hasCollider := hasCollider;
      this.colliderEnabled := colliderEnabled;
      isOpen, isMoving, subscribed, waitingForManager := false, false, false, false;
    }

    /** Subscribes at once when the manager exists; otherwise starts waiting for it. */
    method OnEnable(managerExists: bool)
      modifies this`subscribed, this`waitingForManager
      ensures managerExists ==> subscribed == (old(subscribed) || Subscribes(doorId))
      ensures managerExists ==> waitingForManager == old(waitingForManager)
      ensures !managerExists ==> subscribed == old(subscribed) && waitingForManager
    {
      if managerExists {
        SubscribeToDoorEvents();
      } else {
        waitingForManager := true;
      }
    }

    /** The waiting coroutine resuming once the manager exists, with `s` the
        manager's state at that moment: subscribe, then take over an open door. */
    method ResumeWaitForPuzzleManager(s: PuzzleState)
      modifies this
      ensures !old(waitingForManager) ==> unchanged(this)
      ensures old(waitingForManager) ==> !waitingForManager
      ensures old(waitingForManager) ==> subscribed == (old(subscribed) || Subscribes(doorId))
      ensures old(waitingForManager) && InitialDoorState(doorId, s) ==>
        isOpen && isMoving == (old(isMoving) || !old(isOpen))
      ensures !(old(waitingForManager) && InitialDoorState(doorId, s)) ==>
        isOpen == old(isOpen) && isMoving == old(isMoving)
      ensures colliderEnabled == old(colliderEnabled)
    {
      if waitingForManager {
        waitingForManager := false;
        SubscribeToDoorEvents();
        InitializeDoorState(s);
      }
    }

    method InitializeDoorState(s: PuzzleState)
      modifies this`isOpen, this`isMoving
      ensures InitialDoorState(doorId, s) ==> isOpen && isMoving == (old(isMoving) || !old(isOpen))
      ensures !InitialDoorState(doorId, s) ==> isOpen == old(isOpen) && isMoving == old(isMoving)
    {
      var shouldBeOpen := InitialDoorState(doorId, s);
      if shouldBeOpen {
        OnDoorStateChanged(true);
      }
    }

    method OnDisable(managerExists: bool)
      modifies this`subscribed
      ensures subscribed == (old(subscribed) && !(managerExists && Subscribes(doorId)))
    {
      if managerExists {
        UnsubscribeFromDoorEvents();
      }
    }

    method SubscribeToDoorEvents()
      modifies this`subscribed
      ensures subscribed == (old(subscribed) || Subscribes(doorId))
    {
      match doorId {
        case "A" => subscribed := true;
        case "B" => subscribed := true;
        case _ =>
      }
    }

    method UnsubscribeFromDoorEvents()
      modifies this`subscribed
      ensures subscribed == (old(subscribed) && !Subscribes(doorId))
    {
      match doorId {
        case "A" => subscribed := false;
        case "B" => subscribed := false;
        case _ =>
      }
    }

    /** Edge-triggered: the same value is ignored, a different one is adopted and
        starts the movement. */
    method OnDoorStateChanged(shouldOpen: bool)
      modifies this`isOpen, this`isMoving
      ensures shouldOpen == old(isOpen) ==> isOpen == old(isOpen) && isMoving == old(isMoving)
      ensures shouldOpen != old(isOpen) ==> isOpen == shouldOpen && isMoving
    {
      if shouldOpen != isOpen {
        isOpen := shouldOpen;
        isMoving := true;
      }
    }

    /** Delivery of one manager event to this door's registered handler. */
    method Receive(e: PuzzleEvent)
      modifies this`isOpen, this`isMoving
      ensures subscribed && DoorEventValue(doorId, e).Some? ==>
        isOpen == DoorEventValue(doorId, e).value &&
        isMoving == (old(isMoving) || old(isOpen) != isOpen)
      ensures !(subscribed && DoorEventValue(doorId, e).Some?) ==>
        isOpen == old(isOpen) && isMoving == old(isMoving)
    {
      var v := DoorEventValue(doorId, e);
      if subscribed && v.Some? {
        OnDoorStateChanged(v.value);
      }
    }

    /** The per-frame hook. `reachedTarget` stands for the movement step that the
        engine performs and its distance test against the target position. */
    method Update(reachedTarget: bool)
      modifies this`isMoving, this`colliderEnabled
      ensures !old(isMoving) || !reachedTarget ==>
        isMoving == old(isMoving) && colliderEnabled == old(colliderEnabled)
      ensures old(isMoving) && reachedTarget ==> !isMoving
      ensures old(isMoving) && reachedTarget && hasCollider ==> colliderEnabled == !isOpen
      ensures !hasCollider ==> colliderEnabled == old(colliderEnabled)
    {
      if !isMoving {
        return;
      }
      if reachedTarget {
        OnReachedTarget();
      }
    }

    /** Movement ends; the collider blocks the way exactly when the door is closed. */
    method OnReachedTarget()
      modifies this`isMoving, this`colliderEnabled
      ensures !isMoving
      ensures hasCollider ==> colliderEnabled == !isOpen
      ensures !hasCollider ==> colliderEnabled == old(colliderEnabled)
    {
      isMoving := false;
      if hasCollider {
        colliderEnabled := !isOpen;
      }
    }
  }
}
