/** The pressure-plate table: plates resolved from the configured objects, one
    pressed flag per plate, bounds-checked server updates that are no-ops when the
    flag does not change, and the door each plate drives. */
module PressurePlates {
  import opened Engine

  /** A configured object as the manager sees it: its identity and the plate and
      door-controller components it carries, if any. */
  datatype SceneObject =
    SceneObject(id: ObjectId, pressurePlate: Option<ObjectId>, doorController: Option<ObjectId>)

  /** A client's request to the server. */
  datatype PlateRequest = ActivatePlateServerRpc(id: int, pressed: bool)

  /** The server's broadcast to every client. */
  datatype PlateBroadcast = ActivatePlateClientRpc(id: int, pressed: bool)

  /** What a client does to the door a plate drives. */
  datatype DoorCommand = OpenDoor(door: ObjectId) | CloseDoor(door: ObjectId)

  /** The plate component of a configured slot; none for a null slot or a missing component. */
  function PlateOf(go: Option<SceneObject>): Option<ObjectId>
  {
    if go.Some? then go.value.pressurePlate else None
  }

  /** The pressed flags after making their number match the number of plates: kept
      as they are when it already matches, otherwise all released. */
  function EnsuredStates(states: seq<bool>, plateCount: nat): (r: seq<bool>)
    ensures |r| == plateCount
    ensures |states| == plateCount ==> r == states
    ensures |states| != plateCount ==> forall i :: 0 <= i < plateCount ==> !r[i]
  {
    if |states| == plateCount then states else seq(plateCount, _ => false)
  }

  /** The server-side update of plate `id`: an index out of range or an unchanged
      flag writes nothing and broadcasts nothing; otherwise only flag `id` changes
      and the change is broadcast. */
  function ActivatePlate(states: seq<bool>, id: int, pressed: bool)
    : (r: (seq<bool>, Option<PlateBroadcast>))
    ensures |r.0| == |states|
    ensures !(0 <= id < |states|) || states[id] == pressed ==> r == (states, None)
    ensures 0 <= id < |states| && states[id] != pressed ==>
      r.0[id] == pressed && r.1 == Some(ActivatePlateClientRpc(id, pressed))
    ensures forall j :: 0 <= j < |states| && j != id ==> r.0[j] == states[j]
  {
    if !(0 <= id < |states|) || states[id] == pressed then (states, None)
    else (states[id := pressed], Some(ActivatePlateClientRpc(id, pressed)))
  }

  /** A repeated identical update is silent: the second call writes nothing and
      broadcasts nothing. */
  lemma ActivatePlateIdempotent(states: seq<bool>, id: int, pressed: bool)
    ensures var s1 := ActivatePlate(states, id, pressed).0;
      ActivatePlate(s1, id, pressed) == (s1, None)
  {
  }

  /** The door command a client derives for plate `id`: none for an index out of
      range, a null door slot or a missing controller; otherwise pressed opens and
      released closes. */
  function DoorCommandFor(doorObjects: seq<Option<SceneObject>>, id: int, pressed: bool)
    : (r: Option<DoorCommand>)
    ensures r.Some? <==> 0 <= id < |doorObjects| && doorObjects[id].Some? &&
                         doorObjects[id].value.doorController.Some?
    ensures r.Some? ==> r.value.door == doorObjects[id].value.doorController.value
    ensures r.Some? ==> (r.value.OpenDoor? <==> pressed)
  {
    if !(0 <= id < |doorObjects|) then None
    else if doorObjects[id].None? then None
    else if doorObjects[id].value.doorController.None? then None
    else if pressed then Some(OpenDoor(doorObjects[id].value.doorController.value))
    else Some(CloseDoor(doorObjects[id].value.doorController.value))
  }

  class PressurePlateManager {
    const plateObjects: seq<Option<SceneObject>>
    const doorObjects: seq<Option<SceneObject>>
    var plates: array<Option<ObjectId>>
    var plateStates: array<bool>

    constructor (plateObjects: seq<Option<SceneObject>>, doorObjects: seq<Option<SceneObject>>)
      ensures this.plateObjects == plateObjects && this.doorObjects == doorObjects
      ensures plates.Length == 0 && plateStates.Length == 0
    {
      this.plateObjects, this.doorObjects := plateObjects, doorObjects;
      plates := new Option<ObjectId>[0];
      plateStates := new bool[0];
    }

    /** Resolves every configured slot to its plate (null where the object or its
        component is missing, one slot per object) and resizes the flags. */
    method BuildArraysFromGameObjects()
      modifies this
      ensures fresh(plates) && plates.Length == |plateObjects|
      ensures forall i :: 0 <= i < |plateObjects| ==> plates[i] == PlateOf(plateObjects[i])
      ensures plateStates[..] == EnsuredStates(old(plateStates[..]), plates.Length)
      ensures plateStates.Length == old(plateStates.Length) ==> plateStates == old(plateStates)
      ensures plateStates.Length != old(plateStates.Length) ==> fresh(plateStates)
    {
      plates := new Option<ObjectId>[|plateObjects|](_ => None);
      var i := 0;
      while i < |plateObjects|
        invariant 0 <= i <= |plateObjects|
        invariant plateStates == old(plateStates) && plateStates[..] == old(plateStates[..])
        invariant plates.Length == |plateObjects|
        invariant forall j :: 0 <= j < i ==> plates[j] == PlateOf(plateObjects[j])
        invariant forall j :: i <= j < plates.Length ==> plates[j] == None
        modifies plates
      {
        var go := plateObjects[i];
        if go.None? {
          i := i + 1;
          continue;
        }
        var plate := go.value.pressurePlate;
        if plate.None? {
          i := i + 1;
          continue;
        }
        plates[i] := plate;
        i := i + 1;
      }
      EnsureStateArray();
    }

    /** Makes the flags as many as the plates: a new all-released array when the
        sizes differ, otherwise the array is left as it is. */
    method EnsureStateArray()
      modifies this`plateStates
      ensures plateStates[..] == EnsuredStates(old(plateStates[..]), plates.Length)
      ensures old(plateStates.Length) == plates.Length ==> plateStates == old(plateStates)
      ensures old(plateStates.Length) != plates.Length ==> fresh(plateStates)
    {
      if plateStates.Length != plates.Length {
        plateStates := new bool[plates.Length];
        var i := 0;
        while i < plateStates.Length
          invariant 0 <= i <= plateStates.Length
          invariant forall j :: 0 <= j < i ==> !plateStates[j]
          modifies plateStates
        {
          plateStates[i] := false;
          i := i + 1;
        }
      }
    }

    /** The first slot holding `plateGO`, or -1. */
    method FindPlateIndex(plateGO: SceneObject) returns (id: int)
      ensures id == IndexOf(plateObjects, Some(plateGO))
    {
      id := -1;
      var i := 0;
      while i < |plateObjects|
        invariant 0 <= i <= |plateObjects|
        invariant forall j :: 0 <= j < i ==> plateObjects[j] != Some(plateGO)
      {
        if plateObjects[i] == Some(plateGO) {
          id := i;
          break;
        }
        i := i + 1;
      }
    }

    /** A request by index: an index outside the plates does nothing beyond
        resizing the flags; the server applies the update itself, a client sends it. */
    method RequestActivatePlate(id: int, pressed: bool, isServer: bool)
      returns (request: Option<PlateRequest>, broadcast: Option<PlateBroadcast>)
      modifies this`plateStates, plateStates
      ensures plateStates == old(plateStates) || fresh(plateStates)
      ensures plateStates.Length == plates.Length
      ensures !(0 <= id < plates.Length) || !isServer ==>
        plateStates[..] == EnsuredStates(old(plateStates[..]), plates.Length) && broadcast == None
      ensures request.Some? <==> 0 <= id < plates.Length && !isServer
      ensures request.Some? ==> request.value == ActivatePlateServerRpc(id, pressed)
      ensures 0 <= id < plates.Length && isServer ==>
        (plateStates[..], broadcast) ==
        ActivatePlate(EnsuredStates(old(plateStates[..]), plates.Length), id, pressed)
    {
      request, broadcast := None, None;
      EnsureStateArray();
      if id < 0 || id >= plates.Length {
        return;
      }
      if isServer {
        broadcast := ActivatePlateServer(id, pressed);
      } else {
        request := Some(ActivatePlateServerRpc(id, pressed));
      }
    }

    /** A request by plate object: a null object or one not configured does
        nothing; otherwise it is the request for the first slot holding it. */
    method RequestActivatePlateObject(plateGO: Option<SceneObject>, pressed: bool, isServer: bool)
      returns (request: Option<PlateRequest>, broadcast: Option<PlateBroadcast>)
      modifies this`plateStates, plateStates
      ensures plateStates == old(plateStates) || fresh(plateStates)
      ensures plateGO.None? || plateGO !in plateObjects ==>
        plateStates == old(plateStates) && plateStates[..] == old(plateStates[..]) &&
        request == None && broadcast == None
      ensures plateGO.Some? && plateGO in plateObjects ==>
        var id := IndexOf(plateObjects, plateGO);
        plateStates.Length == plates.Length &&
        (request.Some? <==> id < plates.Length && !isServer) &&
        (request.Some? ==> request.value == ActivatePlateServerRpc(id, pressed)) &&
        (id < plates.Length && isServer ==>
          (plateStates[..], broadcast) ==
          ActivatePlate(EnsuredStates(old(plateStates[..]), plates.Length), id, pressed)) &&
        (id >= plates.Length || !isServer ==>
          plateStates[..] == EnsuredStates(old(plateStates[..]), plates.Length) && broadcast == None)
    {
      request, broadcast := None, None;
      if plateGO.None? {
        return;
      }
      var id := FindPlateIndex(plateGO.value);
      if id == -1 {
        return;
      }
      request, broadcast := RequestActivatePlate(id, pressed, isServer);
    }

    /** The server-side update of one plate. */
    method ActivatePlateServer(id: int, pressed: bool) returns (broadcast: Option<PlateBroadcast>)
      modifies this`plateStates, plateStates
      ensures plateStates == old(plateStates) || fresh(plateStates)
      ensures !(0 <= id < plates.Length) ==>
        plateStates == old(plateStates) && plateStates[..] == old(plateStates[..]) && broadcast == None
      ensures 0 <= id < plates.Length ==>
        (plateStates[..], broadcast) ==
        ActivatePlate(EnsuredStates(old(plateStates[..]), plates.Length), id, pressed)
    {
      broadcast := None;
      if id < 0 || id >= plates.Length {
        return;
      }
      EnsureStateArray();
      if plateStates[id] == pressed {
        return;
      }
      plateStates[id] := pressed;
      broadcast := Some(ActivatePlateClientRpc(id, pressed));
    }

    /** A client's handling of the broadcast: the plate's own display (when the slot
        holds a plate) and the command for its door. */
    method ActivatePlateClient(id: int, pressed: bool)
      returns (plateShown: Option<ObjectId>, door: Option<DoorCommand>)
      ensures !(0 <= id < plates.Length) ==> plateShown == None && door == None
      ensures 0 <= id < plates.Length ==>
        plateShown == plates[id] && door == DoorCommandFor(doorObjects, id, pressed)
    {
      plateShown, door := None, None;
      if id < 0 || id >= plates.Length {
        return;
      }
      plateShown := plates[id];
      door := ApplyDoorStateLocal(id, pressed);
    }

    /** The door command for plate `id`, from the configured door objects. */
    method ApplyDoorStateLocal(id: int, pressed: bool) returns (door: Option<DoorCommand>)
      ensures door == DoorCommandFor(doorObjects, id, pressed)
    {
      if id < 0 || id >= |doorObjects| {
        return None;
      }
      var doorGo := doorObjects[id];
      if doorGo.None? {
        return None;
      }
      var controller := doorGo.value.doorController;
      if controller.None? {
        return None;
      }
      if pressed {
        door := Some(OpenDoor(controller.value));
      } else {
        door := Some(CloseDoor(controller.value));
      }
    }
  }
}
