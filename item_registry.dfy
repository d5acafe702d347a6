/** The server-side registry of collected keys and activated doors. Both are
    append-only lists guarded by a membership scan; activating doors opens the
    gate once enough are active and triggers the doors mapped to a level. */
module ItemRegistry {
  import opened Engine

  /** A network object reference, identified by its network object id. */
  type NetRef = nat

  /** A GameObject as this script sees it: its identity and the NetworkObject
      component it carries, if any. */
  datatype GameObject = GameObject(id: ObjectId, networkObject: Option<NetRef>)

  /** A level's trigger door and the doors that open when it is activated. */
  datatype LevelDoorMapping =
    LevelDoorMapping(levelName: string, triggerDoor: Option<ObjectId>, targetDoors: seq<Option<GameObject>>)

  /** The client broadcasts the server issues. */
  datatype Broadcast =
    | OpenGate
    | TriggerSpecificDoors(targetDoorRefs: seq<NetRef>)

  /** The reference of a slot: none for a null object or one without a NetworkObject. */
  function RefOf(go: Option<GameObject>): Option<NetRef>
  {
    if go.Some? then go.value.networkObject else None
  }

  /** The reference of every slot, null where there is none. */
  function SlotRefs(gos: seq<Option<GameObject>>): (r: seq<Option<NetRef>>)
    ensures |r| == |gos| && forall i :: 0 <= i < |gos| ==> r[i] == RefOf(gos[i])
  {
    seq(|gos|, i requires 0 <= i < |gos| => RefOf(gos[i]))
  }

  /** The trigger door of every mapping, in order. */
  function TriggerDoors(mappings: seq<LevelDoorMapping>): (r: seq<Option<ObjectId>>)
    ensures |r| == |mappings| && forall i :: 0 <= i < |mappings| ==> r[i] == mappings[i].triggerDoor
  {
    seq(|mappings|, i requires 0 <= i < |mappings| => mappings[i].triggerDoor)
  }

  /** The broadcast an activated door triggers through the level mappings: at most
      one, from the first mapping whose trigger door is the resolved door object. */
  function MappingBroadcasts(mappings: seq<LevelDoorMapping>, resolved: Option<ObjectId>)
    : (r: seq<Broadcast>)
    ensures |r| <= 1
    ensures |r| == 1 <==> resolved.Some? && Some(resolved.value) in TriggerDoors(mappings)
    ensures |r| == 1 ==> r[0].TriggerSpecificDoors?
    ensures resolved.Some? && Some(resolved.value) in TriggerDoors(mappings) ==>
      r == [TriggerSpecificDoors(Present(SlotRefs(
        mappings[IndexOf(TriggerDoors(mappings), Some(resolved.value))].targetDoors)))]
  {
    if resolved.None? then []
    else
      var k := IndexOf(TriggerDoors(mappings), Some(resolved.value));
      if k == -1 then []
      else [TriggerSpecificDoors(Present(SlotRefs(mappings[k].targetDoors)))]
  }

  /** The server's handling of an activated door, on the list of activated doors
      and the number of configured doors: a door already in the list changes
      nothing and broadcasts nothing; a new one is appended, the gate broadcast is
      issued whenever the new count reaches the number of doors, and the first
      matching level mapping fires. */
  function ActivateDoor(activated: seq<NetRef>, doorCount: nat, doorRef: NetRef,
                        mappings: seq<LevelDoorMapping>, resolved: Option<ObjectId>)
    : (r: (seq<NetRef>, seq<Broadcast>))
    ensures doorRef in activated ==> r == (activated, [])
    ensures doorRef !in activated ==> r.0 == activated + [doorRef] && |r.0| == |activated| + 1
    ensures doorRef !in activated ==> (OpenGate in r.1 <==> |activated| + 1 >= doorCount)
    ensures doorRef !in activated ==>
      r.1 == (if |activated| + 1 >= doorCount then [OpenGate] else []) + MappingBroadcasts(mappings, resolved)
    ensures NoDuplicates(activated) ==> NoDuplicates(r.0)
  {
    if doorRef in activated then (activated, [])
    else
      var after := AddIfAbsent(activated, doorRef);
      var mapped := MappingBroadcasts(mappings, resolved);
      assert OpenGate !in mapped;
      (after, (if |after| >= doorCount then [OpenGate] else []) + mapped)
  }

  /** The activated list after activating `refs` in turn, none of them resolving
      to a mapped door. */
  function ActivateAll(activated: seq<NetRef>, doorCount: nat, refs: seq<NetRef>): seq<NetRef>
    decreases |refs|
  {
    if |refs| == 0 then activated
    else ActivateDoor(ActivateAll(activated, doorCount, refs[..|refs| - 1]), doorCount, refs[|refs| - 1], [], None).0
  }

  /** Activating distinct doors from an empty list records exactly them, in order. */
  lemma {:induction false} ActivateAllDistinct(doorCount: nat, refs: seq<NetRef>)
    requires NoDuplicates(refs)
    ensures ActivateAll([], doorCount, refs) == refs
    decreases |refs|
  {
    if |refs| > 0 {
      var init := refs[..|refs| - 1];
      assert NoDuplicates(init);
      ActivateAllDistinct(doorCount, init);
      assert refs == init + [refs[|refs| - 1]];
    }
  }

  /** The gate is not a one-time event: after `k` distinct activations, the next
      distinct door broadcasts the gate exactly when `k + 1` reaches the number of
      doors, so it fires on that activation and on every later new door. */
  lemma GateRefires(doorCount: nat, refs: seq<NetRef>, k: nat, resolved: Option<ObjectId>, mappings: seq<LevelDoorMapping>)
    requires NoDuplicates(refs) && k < |refs|
    ensures OpenGate in ActivateDoor(ActivateAll([], doorCount, refs[..k]), doorCount, refs[k], mappings, resolved).1
      <==> k + 1 >= doorCount
  {
    assert NoDuplicates(refs[..k]);
    ActivateAllDistinct(doorCount, refs[..k]);
  }

  /** The membership scan (`foreach` with `Equals`) the registry uses. */
  method ContainsRef(refs: seq<NetRef>, x: NetRef) returns (found: bool)
    ensures found <==> x in refs
  {
    var i := 0;
    while i < |refs|
      invariant 0 <= i <= |refs|
      invariant x !in refs[..i]
    {
      if refs[i] == x {
        return true;
      }
      i := i + 1;
    }
    assert refs[..i] == refs;
    return false;
  }

  /** The first level mapping whose trigger door is `door` (a scan that stops at
      the first match), or -1. */
  method FindLevelMapping(mappings: seq<LevelDoorMapping>, door: ObjectId) returns (k: int)
    ensures k == IndexOf(TriggerDoors(mappings), Some(door))
  {
    var i := 0;
    while i < |mappings|
      invariant 0 <= i <= |mappings|
      invariant forall j :: 0 <= j < i ==> mappings[j].triggerDoor != Some(door)
    {
      if mappings[i].triggerDoor == Some(door) {
        return i;
      }
      i := i + 1;
    }
    return -1;
  }

  /** The references of the objects that are non-null and carry a NetworkObject,
      in their original order. */
  method GetNetworkReferences(gameObjects: seq<Option<GameObject>>) returns (refs: seq<NetRef>)
    ensures refs == Present(SlotRefs(gameObjects))
    ensures |refs| <= |gameObjects|
  {
    refs := [];
    var i := 0;
    while i < |gameObjects|
      invariant 0 <= i <= |gameObjects|
      invariant refs == Present(SlotRefs(gameObjects[..i]))
    {
      var go := gameObjects[i];
      assert SlotRefs(gameObjects[..i + 1]) == SlotRefs(gameObjects[..i]) + [RefOf(go)];
      PresentSnoc(SlotRefs(gameObjects[..i]), RefOf(go));
      if go.Some? {
        var netObj := go.value.networkObject;
        if netObj.Some? {
          refs := refs + [netObj.value];
        }
      }
      i := i + 1;
    }
    assert gameObjects[..i] == gameObjects;
  }

  /** The item manager's server-owned lists and the scene configuration it reads. */
  class ItemManager {
    var collectedKeys: seq<NetRef>
    var isKeyCollected: bool
    var activatedDoors: seq<NetRef>
    const levelMappings: seq<LevelDoorMapping>
    const allDoors: seq<Option<ObjectId>>

    /** Both lists are duplicate-free, and the collected flag is set exactly once
        a key has been collected. */
    ghost predicate Valid()
      reads this
    {
      NoDuplicates(collectedKeys) && NoDuplicates(activatedDoors) &&
      (isKeyCollected <==> |collectedKeys| > 0)
    }

    constructor (levelMappings: seq<LevelDoorMapping>, allDoors: seq<Option<ObjectId>>)
      ensures Valid()
      ensures collectedKeys == [] && activatedDoors == [] && !isKeyCollected
      ensures this.levelMappings == levelMappings && this.allDoors == allDoors
    {
      this.levelMappings := levelMappings;
      this.allDoors := allDoors;
      collectedKeys, activatedDoors, isKeyCollected := [], [], false;
    }

    /** Activates a door on the server. `resolved` is the door's GameObject as the
        reference resolves to, if it resolves. A door already active, or a call off
        the server, changes nothing and broadcasts nothing. A new door is appended;
        the gate opens whenever the count reaches the number of doors (so again on
        every later new door), and the first matching level mapping fires. */
    method ActivateDoorServerRpc(isServer: bool, doorRef: NetRef, resolved: Option<ObjectId>)
      returns (broadcasts: seq<Broadcast>)
      requires Valid()
      modifies this`activatedDoors
      ensures Valid()
      ensures !isServer ==> activatedDoors == old(activatedDoors) && broadcasts == []
      ensures isServer ==>
        (activatedDoors, broadcasts) == ActivateDoor(old(activatedDoors), |allDoors|, doorRef, levelMappings, resolved)
    {
      broadcasts := [];
      if !isServer {
        return;
      }
      var already := ContainsRef(activatedDoors, doorRef);
      if already {
        return;
      }
      activatedDoors := activatedDoors + [doorRef];
      if |activatedDoors| >= |allDoors| {
        broadcasts := broadcasts + [OpenGate];
      }
      var gate := broadcasts;
      assert gate == if |activatedDoors| >= |allDoors| then [OpenGate] else [];
      if resolved.Some? {
        var k := FindLevelMapping(levelMappings, resolved.value);
        if k != -1 {
          var refs := GetNetworkReferences(levelMappings[k].targetDoors);
          broadcasts := broadcasts + [TriggerSpecificDoors(refs)];
        }
      }
      assert broadcasts == gate + MappingBroadcasts(levelMappings, resolved);
    }

    /** Collects a key on the server: idempotent per key; a new key is appended and
        sets the collected flag, which nothing resets. */
    method CollectKeyServerRpc(isServer: bool, keyRef: NetRef)
      requires Valid()
      modifies this`collectedKeys, this`isKeyCollected
      ensures Valid()
      ensures !isServer || keyRef in old(collectedKeys) ==>
        collectedKeys == old(collectedKeys) && isKeyCollected == old(isKeyCollected)
      ensures isServer && keyRef !in old(collectedKeys) ==>
        collectedKeys == old(collectedKeys) + [keyRef] && isKeyCollected
    {
      if !isServer {
        return;
      }
      var already := ContainsRef(collectedKeys, keyRef);
      if already {
        return;
      }
      AppendFresh(collectedKeys, keyRef);
      collectedKeys := collectedKeys + [keyRef];
      isKeyCollected := true;
    }

    /** Whether a key object has been collected: false for a null object or one
        without a NetworkObject, otherwise whether its reference is collected. */
    method HasKey(keyGameObject: Option<GameObject>) returns (has: bool)
      ensures has <==> RefOf(keyGameObject).Some? && RefOf(keyGameObject).value in collectedKeys
    {
      if keyGameObject.None? {
        return false;
      }
      var keyNetObj := keyGameObject.value.networkObject;
      if keyNetObj.None? {
        return false;
      }
      has := ContainsRef(collectedKeys, keyNetObj.value);
    }
  }
}
