/** The logging variant of the networked door. It differs from the compact one in
    whom it listens to: only door id "A" registers with the manager, and only door
    A takes over an already open door when it subscribes late. */
module PuzzleDoor {
  import opened Engine
  import opened Puzzle

  /** Only door id "A" registers with the manager's event. */
  predicate Subscribes(doorId: string)
  {
    doorId == "A"
  }

  /** The value a manager event hands to a door with this id: only door A's event
      reaches only door "A"; every other door, "B" included, never reacts. */
  function DoorEventValue(doorId: string, e: PuzzleEvent): (r: Option<bool>)
    ensures r.Some? <==> doorId == "A" && e.DoorAChanged?
    ensures r.Some? ==> r.value == e.doorValue
  {
    match e
    case DoorAChanged(v) => if doorId == "A" then Some(v) else None
    case _ => None
  }

  /** A late subscriber opens at once only when it is door "A" and door A's
      variable is set. */
  function LateOpen(doorId: string, s: PuzzleState): (r: bool)
    ensures r ==> doorId == "A"
    ensures r <==> DoorNamed(s, doorId) == Some(true) && Subscribes(doorId)
  {
    doorId == "A" && s.doorAOpen
  }

  class NetworkedDoor {
    const doorId: string
    /** Whether a collider component is attached. */
    const hasCollider: bool
    var colliderEnabled: bool
    var isOpen: bool
    var isMoving: bool
    /** Whether `OnDoorStateChanged` is registered with the manager's event. */
    var subscribed: bool
    /** Whether the coroutine that waits for the manager is pending. */
    var waitingForManager: bool

    constructor (doorId: string, hasCollider: bool, colliderEnabled: bool)
      ensures this.doorId == doorId && this.hasCollider == hasCollider
      ensures this.colliderEnabled == colliderEnabled
      ensures !isOpen && !isMoving && !subscribed && !waitingForManager
    {
      this.doorId := doorId;
      this.hasCollider := hasCollider;
      this.colliderEnabled := colliderEnabled;
      isOpen, isMoving, subscribed, waitingForManager := false, false, false, false;
    }

    /** Subscribes at once when the manager exists; otherwise starts waiting for it. */
    method OnEnable(managerExists: bool)
      modifies this`subscribed, this`waitingForManager
      ensures managerExists ==> subscribed == (old(subscribed) || Subscribes(doorId))
      ensures managerExists ==> waitingForManager == old(waitingForManager)
      ensures !managerExists ==> subscribed == old(subscribed) && waitingForManager
    {
      if managerExists {
        SubscribeToDoorEvents();
      } else {
        waitingForManager := true;
      }
    }

    /** The waiting coroutine resuming once the manager exists, with `s` the
        manager's state at that moment. */
    method ResumeWaitForPuzzleManager(s: PuzzleState)
      modifies this
      ensures !old(waitingForManager) ==> unchanged(this)
      ensures old(waitingForManager) ==> !waitingForManager
      ensures old(waitingForManager) ==> subscribed == (old(subscribed) || Subscribes(doorId))
      ensures old(waitingForManager) && LateOpen(doorId, s) ==>
        isOpen && isMoving == (old(isMoving) || !old(isOpen))
      ensures !(old(waitingForManager) && LateOpen(doorId, s)) ==>
        isOpen == old(isOpen) && isMoving == old(isMoving)
      ensures colliderEnabled == old(colliderEnabled)
    {
      if waitingForManager {
        waitingForManager := false;
        SubscribeToDoorEvents();
        if doorId == "A" && s.doorAOpen {
          OnDoorStateChanged(true);
        }
      }
    }

    method OnDisable(managerExists: bool)
      modifies this`subscribed
      ensures subscribed == (old(subscribed) && !(managerExists && Subscribes(doorId)))
    {
      if managerExists {
        UnsubscribeFromDoorEvents();
      }
    }

    method SubscribeToDoorEvents()
      modifies this`subscribed
      ensures subscribed == (old(subscribed) || Subscribes(doorId))
    {
      match doorId {
        case "A" => subscribed := true;
        case _ =>
      }
    }

    method UnsubscribeFromDoorEvents()
      modifies this`subscribed
      ensures subscribed == (old(subscribed) && !Subscribes(doorId))
    {
      match doorId {
        case "A" => subscribed := false;
        case _ =>
      }
    }

    /** Edge-triggered: the same value is ignored, a different one is adopted and
        starts the movement. */
    method OnDoorStateChanged(shouldOpen: bool)
      modifies this`isOpen, this`isMoving
      ensures shouldOpen == old(isOpen) ==> isOpen == old(isOpen) && isMoving == old(isMoving)
      ensures shouldOpen != old(isOpen) ==> isOpen == shouldOpen && isMoving
    {
      if shouldOpen != isOpen {
        isOpen := shouldOpen;
        isMoving := true;
      }
    }

    /** Delivery of one manager event to this door's registered handler. */
    method Receive(e: PuzzleEvent)
      modifies this`isOpen, this`isMoving
      ensures subscribed && DoorEventValue(doorId, e).Some? ==>
        isOpen == DoorEventValue(doorId, e).value &&
        isMoving == (old(isMoving) || old(isOpen) != isOpen)
      ensures !(subscribed && DoorEventValue(doorId, e).Some?) ==>
        isOpen == old(isOpen) && isMoving == old(isMoving)
    {
      var v := DoorEventValue(doorId, e);
      if subscribed && v.Some? {
        OnDoorStateChanged(v.value);
      }
    }

    /** The per-frame hook. `reachedTarget` stands for the movement step that the
        engine performs and its distance test against the target position. On
        arrival movement stops and the collider is enabled exactly when closed. */
    method Update(reachedTarget: bool)
      modifies this`isMoving, this`colliderEnabled
      ensures !old(isMoving) || !reachedTarget ==>
        isMoving == old(isMoving) && colliderEnabled == old(colliderEnabled)
      ensures old(isMoving) && reachedTarget ==> !isMoving
      ensures old(isMoving) && reachedTarget && hasCollider ==> colliderEnabled == !isOpen
      ensures !hasCollider ==> colliderEnabled == old(colliderEnabled)
    {
      if !isMoving {
        return;
      }
      if reachedTarget {
        isMoving := false;
        if hasCollider {
          colliderEnabled := !isOpen;
        }
      }
    }
  }
}
