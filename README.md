# Veil of Colours — puzzle state model

This project models the game's authoritative puzzle state: the part of the Unity scripts that decides rather than renders. This covers:

- the cross-level puzzle store, with its switch, door and colour variables and the tick that wires switches to doors;
- the switches and doors that read that store, in both variants each (the compact `Networking` one and the logging `Puzzle` one);
- the server-side registry of collected keys and activated doors;
- the local key dictionary used by keys and key doors;
- the pressure-plate table;
- the checkpoint registry and its one-shot triggers;
- the lamp registry;
- the colour-layer manager and the stick-driven colour wheel.

Engine objects (GameObjects, network references, lamps, tilemaps, sprites) are opaque natural-number identities. `null` is `Option.None`; a destroyed object counts as null.

Each RPC is a direct method call. `IsServer`, `IsHost`, `IsOwner`, `IsSpawned`, the presence of a singleton `Instance`, the keyboard and the stick input become parameters. A sent RPC or broadcast is returned as a value, not delivered.

A networked variable's change notification is modelled by `Puzzle.ChangeEvents(before, after)`: a variable raises an event only when a write changes its value. The switches and doors receive such events through their `Receive` methods.

Each class keeps the original's fields and updates them in place. Each state-changing method is tied to a pure function of the old state, and the properties are proved as lemmas about those functions.

`Engine` holds the shared vocabulary: `Option`, `Fallible` (an unchecked dereference that throws), duplicate-free lists, first-index search and null filtering. The `Scenarios` module drives the classes through end-to-end runs.

Two behaviours of the server registry are worth stating outright:

- The "all doors activated" gate fires on every new distinct door once the count reaches `allDoors.Count` (`Veil-of-Colours/Assets/Scripts/GameLogic/ItemManager.cs:67-70`), not only on the activation that first reaches it. `ItemRegistry.GateRefires` proves this.
- `HasKey` returns false for a null (destroyed) object before it consults `collectedKeys` (`Veil-of-Colours/Assets/Scripts/GameLogic/ItemManager.cs:178`). The reference stays collected, as `Scenarios.KeyGating` shows.

## Model

| member | source | states |
|---|---|---|
| Puzzle.ActivateSwitch | Veil-of-Colours/Assets/Scripts/GameMechanic/PuzzleManager.cs:53-70 | exactly the switch an id "A"–"D" names takes the new state; every other switch, both doors and the colour index keep their values; an unknown id leaves the whole state unchanged |
| Puzzle.SetDoorState | Veil-of-Colours/Assets/Scripts/GameMechanic/PuzzleManager.cs:73-84 | only ids "A"/"B" write, each only its own door variable; switches and colour are untouched; any other id is a no-op |
| Puzzle.ChangeColor | Veil-of-Colours/Assets/Scripts/GameMechanic/PuzzleManager.cs:87-90 | the colour index takes the given value (no range check) and nothing else changes |
| Puzzle.CrossLevelUpdate | Veil-of-Colours/Assets/Scripts/GameMechanic/PuzzleManager.cs:100-110 | after one tick door B equals switch A and door A equals switch B; no switch and not the colour index is written |
| Puzzle.CrossLevelEvents | Veil-of-Colours/Assets/Scripts/GameMechanic/PuzzleManager.cs:106-110 | a tick raises an event only for a door that differed from its switch, carrying the switch's value |
| Puzzle.CrossLevelIdempotent | Veil-of-Colours/Assets/Scripts/GameMechanic/PuzzleManager.cs:106-110 | two ticks give the same state as one, and the second tick raises no event |
| Puzzle.ChangeEventsExactlyOnChange | Veil-of-Colours/Assets/Scripts/GameMechanic/PuzzleManager.cs:44-49 | a write raises some event if and only if one of the five observed variables changed |
| Puzzle.ChangeEventsReport | Veil-of-Colours/Assets/Scripts/GameMechanic/PuzzleManager.cs:44-49 | every raised event carries the new value of the variable it reports |
| Puzzle.RepeatedSwitchSilent | Veil-of-Colours/Assets/Scripts/GameMechanic/PuzzleManager.cs:53-70 | repeating an identical switch call raises no event |
| Puzzle.RepeatedDoorSilent | Veil-of-Colours/Assets/Scripts/GameMechanic/PuzzleManager.cs:73-84 | repeating an identical door call raises no event |
| Puzzle.RepeatedColorSilent | Veil-of-Colours/Assets/Scripts/GameMechanic/PuzzleManager.cs:87-90 | repeating an identical colour call raises no event |
| Puzzle.PuzzleManager.constructor | Veil-of-Colours/Assets/Scripts/GameMechanic/PuzzleManager.cs:15-23 | every switch and door starts false and the colour index at 0 |
| Puzzle.PuzzleManager.ActivateSwitchServerRpc | Veil-of-Colours/Assets/Scripts/GameMechanic/PuzzleManager.cs:53-70 | the new state is `ActivateSwitch` of the old one, and the returned events are its change events |
| Puzzle.PuzzleManager.SetDoorStateServerRpc | Veil-of-Colours/Assets/Scripts/GameMechanic/PuzzleManager.cs:73-84 | the new state is `SetDoorState` of the old one, with its change events |
| Puzzle.PuzzleManager.ChangeColorServerRpc | Veil-of-Colours/Assets/Scripts/GameMechanic/PuzzleManager.cs:87-90 | the new state is `ChangeColor` of the old one, with its change events |
| Puzzle.PuzzleManager.Update | Veil-of-Colours/Assets/Scripts/GameMechanic/PuzzleManager.cs:92-98 | on the server the tick applies the cross-level rule; anywhere else it changes nothing and raises nothing |
| Puzzle.PuzzleManager.UpdateCrossLevelPuzzles | Veil-of-Colours/Assets/Scripts/GameMechanic/PuzzleManager.cs:100-110 | the new state is `CrossLevelUpdate` of the old one, with its change events |
| NetworkingSwitch.ProposedState | Veil-of-Colours/Assets/Scripts/Networking/NetworkedSwitch.cs:92-95 | an active one-shot switch proposes nothing; otherwise the proposal is the opposite of the confirmed state (so always true for a one-shot switch) |
| NetworkingSwitch.SwitchEventValue | Veil-of-Colours/Assets/Scripts/Networking/NetworkedSwitch.cs:52-63 | a switch receives a value only from its own event, and only ids "A"/"B" have one |
| NetworkingSwitch.NetworkedSwitch.constructor | Veil-of-Colours/Assets/Scripts/Networking/NetworkedSwitch.cs:29-30 | a switch starts with no player nearby and inactive |
| NetworkingSwitch.NetworkedSwitch.OnEnable | Veil-of-Colours/Assets/Scripts/Networking/NetworkedSwitch.cs:40-44 | the handler is registered only when the manager exists and the id is "A" or "B" |
| NetworkingSwitch.NetworkedSwitch.OnDisable | Veil-of-Colours/Assets/Scripts/Networking/NetworkedSwitch.cs:46-50 | the handler is removed only when the manager exists and the id is "A" or "B" |
| NetworkingSwitch.NetworkedSwitch.SubscribeToEvents | Veil-of-Colours/Assets/Scripts/Networking/NetworkedSwitch.cs:52-63 | registration is dispatched on the id; other ids register nothing |
| NetworkingSwitch.NetworkedSwitch.UnsubscribeFromEvents | Veil-of-Colours/Assets/Scripts/Networking/NetworkedSwitch.cs:65-76 | removal is dispatched on the id; other ids remove nothing |
| NetworkingSwitch.NetworkedSwitch.Update | Veil-of-Colours/Assets/Scripts/Networking/NetworkedSwitch.cs:78-88 | a request is possible only with a player nearby, a keyboard and E pressed this frame; then it is the activation's request |
| NetworkingSwitch.NetworkedSwitch.ActivateSwitch | Veil-of-Colours/Assets/Scripts/Networking/NetworkedSwitch.cs:90-101 | a request is sent if and only if the manager exists and the switch is a toggle or inactive; it carries this id and `!isActive`; `isActive` is not written |
| NetworkingSwitch.NetworkedSwitch.OnSwitchStateChanged | Veil-of-Colours/Assets/Scripts/Networking/NetworkedSwitch.cs:103-107 | `isActive` becomes exactly the received value |
| NetworkingSwitch.NetworkedSwitch.Receive | Veil-of-Colours/Assets/Scripts/Networking/NetworkedSwitch.cs:103-107 | a registered switch adopts the value of its own event; any other event, or a switch with another id, leaves `isActive` as it was |
| NetworkingSwitch.NetworkedSwitch.OnTriggerEnter2D | Veil-of-Colours/Assets/Scripts/Networking/NetworkedSwitch.cs:117-123 | a "Player" collider makes the player nearby; other tags change nothing |
| NetworkingSwitch.NetworkedSwitch.OnTriggerExit2D | Veil-of-Colours/Assets/Scripts/Networking/NetworkedSwitch.cs:125-131 | a "Player" collider leaving clears proximity; other tags change nothing |
| PuzzleSwitch.Attempt | Veil-of-Colours/Assets/Scripts/Puzzle/NetworkedSwitch.cs:112-131 | an active one-shot switch is ignored; otherwise `!isActive` is sent exactly when the manager exists, and reported missing otherwise |
| PuzzleSwitch.NetworkedSwitch.constructor | Veil-of-Colours/Assets/Scripts/Puzzle/NetworkedSwitch.cs:30-31 | a switch starts with no player nearby and inactive |
| PuzzleSwitch.NetworkedSwitch.OnEnable | Veil-of-Colours/Assets/Scripts/Puzzle/NetworkedSwitch.cs:41-48 | the handler is registered only when the manager exists and the id is "A" or "B" |
| PuzzleSwitch.NetworkedSwitch.OnDisable | Veil-of-Colours/Assets/Scripts/Puzzle/NetworkedSwitch.cs:50-57 | the handler is removed only when the manager exists and the id is "A" or "B" |
| PuzzleSwitch.NetworkedSwitch.Update | Veil-of-Colours/Assets/Scripts/Puzzle/NetworkedSwitch.cs:85-104 | nothing happens without a player nearby; a missing keyboard stops the frame; an attempt happens only when E was pressed |
| PuzzleSwitch.NetworkedSwitch.ActivateSwitch | Veil-of-Colours/Assets/Scripts/Puzzle/NetworkedSwitch.cs:106-132 | the outcome is `Attempt` of the switch's current flags |
| PuzzleSwitch.NetworkedSwitch.OnSwitchStateChanged | Veil-of-Colours/Assets/Scripts/Puzzle/NetworkedSwitch.cs:134-139 | `isActive` becomes exactly the received value |
| PuzzleSwitch.NetworkedSwitch.Receive | Veil-of-Colours/Assets/Scripts/Puzzle/NetworkedSwitch.cs:134-139 | a registered switch adopts the value of its own event; any other event leaves `isActive` as it was |
| PuzzleSwitch.NetworkedSwitch.OnTriggerEnter2D | Veil-of-Colours/Assets/Scripts/Puzzle/NetworkedSwitch.cs:150-157 | only a "Player" collider makes the player nearby |
| PuzzleSwitch.NetworkedSwitch.OnTriggerExit2D | Veil-of-Colours/Assets/Scripts/Puzzle/NetworkedSwitch.cs:159-165 | only a "Player" collider leaving clears proximity |
| NetworkingDoor.DoorEventValue | Veil-of-Colours/Assets/Scripts/Networking/NetworkedDoor.cs:105-116 | a door receives a value only from its own door event, and only ids "A"/"B" have one |
| NetworkingDoor.InitialDoorState | Veil-of-Colours/Assets/Scripts/Networking/NetworkedDoor.cs:86-91 | "A" reads door A, "B" reads door B, any other id is closed |
| NetworkingDoor.NetworkedDoor.constructor | Veil-of-Colours/Assets/Scripts/Networking/NetworkedDoor.cs:37-38 | a door starts closed and not moving |
| NetworkingDoor.NetworkedDoor.OnEnable | Veil-of-Colours/Assets/Scripts/Networking/NetworkedDoor.cs:61-71 | with a manager the door registers at once; without one it starts waiting |
| NetworkingDoor.NetworkedDoor.ResumeWaitForPuzzleManager | Veil-of-Colours/Assets/Scripts/Networking/NetworkedDoor.cs:73-82 | a pending wait registers the door and then applies the initial state; with no wait pending nothing changes |
| NetworkingDoor.NetworkedDoor.InitializeDoorState | Veil-of-Colours/Assets/Scripts/Networking/NetworkedDoor.cs:84-95 | the handler is called with true only when the initial state is open; otherwise nothing changes |
| NetworkingDoor.NetworkedDoor.OnDisable | Veil-of-Colours/Assets/Scripts/Networking/NetworkedDoor.cs:97-103 | the handler is removed only when the manager exists and the id is "A" or "B" |
| NetworkingDoor.NetworkedDoor.SubscribeToDoorEvents | Veil-of-Colours/Assets/Scripts/Networking/NetworkedDoor.cs:105-116 | only ids "A"/"B" register |
| NetworkingDoor.NetworkedDoor.UnsubscribeFromDoorEvents | Veil-of-Colours/Assets/Scripts/Networking/NetworkedDoor.cs:118-129 | only ids "A"/"B" unregister |
| NetworkingDoor.NetworkedDoor.OnDoorStateChanged | Veil-of-Colours/Assets/Scripts/Networking/NetworkedDoor.cs:131-138 | the value the door already has changes nothing; a different one is adopted and starts the movement |
| NetworkingDoor.NetworkedDoor.Receive | Veil-of-Colours/Assets/Scripts/Networking/NetworkedDoor.cs:131-138 | a registered door follows its own door event, edge-triggered; other events change nothing |
| NetworkingDoor.NetworkedDoor.Update | Veil-of-Colours/Assets/Scripts/Networking/NetworkedDoor.cs:140-156 | a tick while not moving, or before the target is reached, changes nothing; arrival stops the movement and enables the collider exactly when closed |
| NetworkingDoor.NetworkedDoor.OnReachedTarget | Veil-of-Colours/Assets/Scripts/Networking/NetworkedDoor.cs:158-165 | movement stops; an attached collider is enabled exactly when the door is closed |
| PuzzleDoor.DoorEventValue | Veil-of-Colours/Assets/Scripts/Puzzle/NetworkedDoor.cs:105-115 | only door A's event reaches only door "A"; every other door, "B" included, never reacts |
| PuzzleDoor.LateOpen | Veil-of-Colours/Assets/Scripts/Puzzle/NetworkedDoor.cs:89-94 | a late subscriber opens only when its id is "A" and door A's variable is true |
| PuzzleDoor.NetworkedDoor.constructor | Veil-of-Colours/Assets/Scripts/Puzzle/NetworkedDoor.cs:35-36 | a door starts closed and not moving |
| PuzzleDoor.NetworkedDoor.OnEnable | Veil-of-Colours/Assets/Scripts/Puzzle/NetworkedDoor.cs:58-77 | with a manager the door registers at once; without one it starts waiting |
| PuzzleDoor.NetworkedDoor.ResumeWaitForPuzzleManager | Veil-of-Colours/Assets/Scripts/Puzzle/NetworkedDoor.cs:79-95 | a pending wait registers the door and opens it only under `LateOpen`; with no wait pending nothing changes |
| PuzzleDoor.NetworkedDoor.OnDisable | Veil-of-Colours/Assets/Scripts/Puzzle/NetworkedDoor.cs:97-103 | the handler is removed only when the manager exists and the id is "A" |
| PuzzleDoor.NetworkedDoor.SubscribeToDoorEvents | Veil-of-Colours/Assets/Scripts/Puzzle/NetworkedDoor.cs:105-115 | only id "A" registers |
| PuzzleDoor.NetworkedDoor.UnsubscribeFromDoorEvents | Veil-of-Colours/Assets/Scripts/Puzzle/NetworkedDoor.cs:117-125 | only id "A" unregisters |
| PuzzleDoor.NetworkedDoor.OnDoorStateChanged | Veil-of-Colours/Assets/Scripts/Puzzle/NetworkedDoor.cs:127-142 | the same value is ignored; a different one is adopted and starts the movement |
| PuzzleDoor.NetworkedDoor.Receive | Veil-of-Colours/Assets/Scripts/Puzzle/NetworkedDoor.cs:127-142 | a registered door "A" follows door A's event, edge-triggered; nothing else reacts |
| PuzzleDoor.NetworkedDoor.Update | Veil-of-Colours/Assets/Scripts/Puzzle/NetworkedDoor.cs:144-169 | a tick while not moving changes nothing; arrival stops the movement and enables the collider exactly when closed |
| ItemRegistry.MappingBroadcasts | Veil-of-Colours/Assets/Scripts/GameLogic/ItemManager.cs:72-85 | at most one mapping fires, and one fires exactly when the door resolves and some mapping has it as trigger door; it is then the first such mapping, and it carries the references of that mapping's non-null target doors that have a NetworkObject, in order |
| ItemRegistry.ActivateDoor | Veil-of-Colours/Assets/Scripts/GameLogic/ItemManager.cs:54-85 | a door already activated changes nothing and broadcasts nothing; a new one is appended (count grows by one, order kept, no duplicate); the broadcasts are exactly the gate (if and only if the new count reaches the number of doors) followed by the first matching mapping's broadcast |
| ItemRegistry.ActivateAllDistinct | Veil-of-Colours/Assets/Scripts/GameLogic/ItemManager.cs:54-61 | activating distinct doors from an empty list records exactly those doors, in order |
| ItemRegistry.GateRefires | Veil-of-Colours/Assets/Scripts/GameLogic/ItemManager.cs:67-70 | after k distinct activations, the next distinct door opens the gate if and only if k + 1 reaches the number of doors, so the gate fires again on every later new door |
| ItemRegistry.ContainsRef | Veil-of-Colours/Assets/Scripts/GameLogic/ItemManager.cs:54-58 | the membership scan answers true exactly when the reference is in the list |
| ItemRegistry.FindLevelMapping | Veil-of-Colours/Assets/Scripts/GameLogic/ItemManager.cs:76-84 | the scan stops at the first mapping whose trigger door is the activated door; -1 when there is none |
| ItemRegistry.GetNetworkReferences | Veil-of-Colours/Assets/Scripts/GameLogic/ItemManager.cs:88-105 | exactly the references of the non-null objects that carry a NetworkObject, in input order; never longer than the input |
| ItemRegistry.ItemManager.constructor | Veil-of-Colours/Assets/Scripts/GameLogic/ItemManager.cs:38-42 | both lists start empty and `isKeyCollected` false |
| ItemRegistry.ItemManager.ActivateDoorServerRpc | Veil-of-Colours/Assets/Scripts/GameLogic/ItemManager.cs:49-86 | off the server nothing happens; on the server the new list and the broadcasts are `ActivateDoor` of the old list; the lists stay duplicate-free |
| ItemRegistry.ItemManager.CollectKeyServerRpc | Veil-of-Colours/Assets/Scripts/GameLogic/ItemManager.cs:157-173 | off the server, or for a key already collected, nothing changes; a new key is appended and sets `isKeyCollected`, which is true exactly when some key is collected |
| ItemRegistry.ItemManager.HasKey | Veil-of-Colours/Assets/Scripts/GameLogic/ItemManager.cs:176-192 | false for a null object or one without a NetworkObject; otherwise true exactly when its reference is collected |
| KeyInventory.Collect | Veil-of-Colours/Assets/Scripts/Item/ItemManager.cs:61-71 | a known key becomes held and no other key changes; an unknown id changes nothing; the key set never grows |
| KeyInventory.Use | Veil-of-Colours/Assets/Scripts/Item/ItemManager.cs:73-81 | a held key is consumed and no other key changes; otherwise nothing changes; the key set never grows |
| KeyInventory.CollectThenUse | Veil-of-Colours/Assets/Scripts/Item/ItemManager.cs:61-81 | collecting a known key and then using it leaves that key false and every other key as it was |
| KeyInventory.ReplayKeepsDomain | Veil-of-Colours/Assets/Scripts/Item/ItemManager.cs:61-81 | after any run of collects and uses the table knows exactly the keys it started with |
| KeyInventory.ReplayHolds | Veil-of-Colours/Assets/Scripts/Item/ItemManager.cs:61-81 | after a run, a key is held if and only if it is known and its last action was a collect, or it had no action and was held before |
| KeyInventory.KeyTable.constructor | Veil-of-Colours/Assets/Scripts/Item/ItemManager.cs:16-18 | the shared table starts empty with no instance |
| KeyInventory.ItemManager.constructor | Veil-of-Colours/Assets/Scripts/Item/ItemManager.cs:9-10 | a key or door keeps its configured key ids and is not destroyed |
| KeyInventory.ItemManager.Awake | Veil-of-Colours/Assets/Scripts/Item/ItemManager.cs:27-44 | without a live instance this one becomes it and, when the table is empty, the three keys are added as not held; otherwise nothing changes |
| KeyInventory.ItemManager.CollectKey | Veil-of-Colours/Assets/Scripts/Item/ItemManager.cs:61-71 | the table becomes `Collect` of the old one; the object is destroyed exactly when its key was known |
| KeyInventory.ItemManager.UseKey | Veil-of-Colours/Assets/Scripts/Item/ItemManager.cs:73-81 | the table becomes `Use` of the old one; the door is destroyed exactly when its key was held |
| PressurePlates.EnsuredStates | Veil-of-Colours/Assets/Scripts/GameLogic/PressurePlateManager.cs:51-59 | the flags match the plate count; they are kept when the sizes already matched, otherwise all released |
| PressurePlates.ActivatePlate | Veil-of-Colours/Assets/Scripts/GameLogic/PressurePlateManager.cs:100-111 | an out-of-range index or an unchanged value writes nothing and broadcasts nothing; otherwise only flag `id` changes and the change is broadcast |
| PressurePlates.ActivatePlateIdempotent | Veil-of-Colours/Assets/Scripts/GameLogic/PressurePlateManager.cs:106-107 | a second identical update writes nothing and broadcasts nothing |
| PressurePlates.DoorCommandFor | Veil-of-Colours/Assets/Scripts/GameLogic/PressurePlateManager.cs:123-138 | no command for an out-of-range index, a null door or a missing controller; otherwise pressed opens and released closes that controller |
| PressurePlates.PressurePlateManager.constructor | Veil-of-Colours/Assets/Scripts/GameLogic/PressurePlateManager.cs:9-13 | both arrays start empty |
| PressurePlates.PressurePlateManager.BuildArraysFromGameObjects | Veil-of-Colours/Assets/Scripts/GameLogic/PressurePlateManager.cs:27-49 | one plate slot per configured object, null where the object or its component is missing; then the flags are resized |
| PressurePlates.PressurePlateManager.EnsureStateArray | Veil-of-Colours/Assets/Scripts/GameLogic/PressurePlateManager.cs:51-59 | the flags become `EnsuredStates` of the old ones: the same array when the size matched, a new all-released one otherwise |
| PressurePlates.PressurePlateManager.FindPlateIndex | Veil-of-Colours/Assets/Scripts/GameLogic/PressurePlateManager.cs:79-87 | the first slot holding the plate object, or -1 |
| PressurePlates.PressurePlateManager.RequestActivatePlate | Veil-of-Colours/Assets/Scripts/GameLogic/PressurePlateManager.cs:62-72 | the flags are resized first; an out-of-range index then does nothing; the server applies `ActivatePlate`, while a client sends the request and writes nothing |
| PressurePlates.PressurePlateManager.RequestActivatePlateObject | Veil-of-Colours/Assets/Scripts/GameLogic/PressurePlateManager.cs:75-92 | a null or unconfigured object does nothing at all; otherwise it is the index request for the first slot holding it |
| PressurePlates.PressurePlateManager.ActivatePlateServer | Veil-of-Colours/Assets/Scripts/GameLogic/PressurePlateManager.cs:94-111 | an out-of-range index touches nothing; otherwise the flags and the broadcast are `ActivatePlate` of the resized flags |
| PressurePlates.PressurePlateManager.ActivatePlateClient | Veil-of-Colours/Assets/Scripts/GameLogic/PressurePlateManager.cs:113-120 | an out-of-range index does nothing; otherwise the plate in that slot (if any) is shown and the door command is `DoorCommandFor` |
| PressurePlates.PressurePlateManager.ApplyDoorStateLocal | Veil-of-Colours/Assets/Scripts/GameLogic/PressurePlateManager.cs:123-138 | the door command is `DoorCommandFor` the configured door objects |
| Checkpoints.Register | Veil-of-Colours/Assets/Scripts/GameLogic/CheckpointManager.cs:26-32 | null is ignored, a known checkpoint is not added again, a new one is appended at the end; the old list is a prefix and no duplicate appears |
| Checkpoints.Activate | Veil-of-Colours/Assets/Scripts/GameLogic/CheckpointManager.cs:34-41 | the checkpoint is registered and becomes the last checkpoint; null changes nothing; the registry invariant is kept |
| Checkpoints.LastCheckpoint | Veil-of-Colours/Assets/Scripts/GameLogic/CheckpointManager.cs:43-46 | null exactly when the index is -1, otherwise the registered checkpoint at the index |
| Checkpoints.RunKeepsWellFormed | Veil-of-Colours/Assets/Scripts/GameLogic/CheckpointManager.cs:26-41 | any sequence of register and activate calls keeps the list duplicate-free and the index -1 or a valid position, and the list never shrinks |
| Checkpoints.RunLastCheckpoint | Veil-of-Colours/Assets/Scripts/GameLogic/CheckpointManager.cs:34-46 | from the initial registry, the last checkpoint is the one most recently activated, and null before any activation |
| Checkpoints.ReactivateEarlier | Veil-of-Colours/Assets/Scripts/GameLogic/CheckpointManager.cs:38-39 | re-activating a registered checkpoint moves "last" back to it without changing the list |
| Checkpoints.CheckpointManager.constructor | Veil-of-Colours/Assets/Scripts/GameLogic/CheckpointManager.cs:8-9 | the list starts empty and the index at -1 |
| Checkpoints.CheckpointManager.RegisterCheckpoint | Veil-of-Colours/Assets/Scripts/GameLogic/CheckpointManager.cs:26-32 | the list becomes `Register` of the old one and the invariant is kept |
| Checkpoints.CheckpointManager.ActivateCheckpoint | Veil-of-Colours/Assets/Scripts/GameLogic/CheckpointManager.cs:34-41 | the registry becomes `Activate` of the old one and the invariant is kept |
| Checkpoints.CheckpointManager.GetActiveCheckpointsArray | Veil-of-Colours/Assets/Scripts/GameLogic/CheckpointManager.cs:79 | a new array holding the registered checkpoints in registration order |
| Checkpoints.SpriteAfter | Veil-of-Colours/Assets/Scripts/GameLogic/CheckpointScript.cs:23-30 | asking for the inactive sprite, or a missing renderer or sprite, leaves the sprite as it was; otherwise the activated sprite is shown |
| Checkpoints.CheckpointScript.constructor | Veil-of-Colours/Assets/Scripts/GameLogic/CheckpointScript.cs:7 | a checkpoint starts not activated |
| Checkpoints.CheckpointScript.OnTriggerEnter2D | Veil-of-Colours/Assets/Scripts/GameLogic/CheckpointScript.cs:11-21 | a non-player collider, or any entry after the first, changes nothing; the first player entry sets `activated`, activates this checkpoint in the manager when one exists, and shows the activated sprite |
| Checkpoints.CheckpointScript.SetSpriteActive | Veil-of-Colours/Assets/Scripts/GameLogic/CheckpointScript.cs:23-30 | the sprite becomes `SpriteAfter` of the old one |
| Lamps.RemoveFirst | Veil-of-Colours/Assets/Scripts/GameLogic/LampManager.cs:37-43 | the first occurrence of the lamp is cut out and the rest keeps its order (so exactly one occurrence goes, as a multiset difference); an absent lamp leaves the list unchanged |
| Lamps.RemoveFirstNoDuplicates | Veil-of-Colours/Assets/Scripts/GameLogic/LampManager.cs:37-43 | in a duplicate-free list the lamp is gone afterwards and no duplicate appears |
| Lamps.RegisterAllContains | Veil-of-Colours/Assets/Scripts/GameLogic/LampManager.cs:45-52 | after registering a batch every found lamp is in the list, the old entries are kept as a prefix and no duplicate is added |
| Lamps.LampManager.constructor | Veil-of-Colours/Assets/Scripts/GameLogic/LampManager.cs:10 | the list is the configured one |
| Lamps.LampManager.RegisterLamp | Veil-of-Colours/Assets/Scripts/GameLogic/LampManager.cs:29-35 | the lamp is appended unless already present, so no duplicate is ever introduced |
| Lamps.LampManager.UnregisterLamp | Veil-of-Colours/Assets/Scripts/GameLogic/LampManager.cs:37-43 | the list becomes `RemoveFirst` of the old one; an absent lamp changes nothing |
| Lamps.LampManager.RegisterAllLampsInScene | Veil-of-Colours/Assets/Scripts/GameLogic/LampManager.cs:45-52 | the list becomes `RegisterAll` of the old one over the found lamps, in order |
| Lamps.LampManager.ApplyColorToAllLamps | Veil-of-Colours/Assets/Scripts/GameLogic/LampManager.cs:54-63 | the lamps visited are exactly the non-null entries, in list order |
| Lamps.LampManager.ApplyColorIndexToAllLamps | Veil-of-Colours/Assets/Scripts/GameLogic/LampManager.cs:65-74 | exactly the non-null entries are visited, in order, each with the given colour index |
| Lamps.LampManager.GetAllLamps | Veil-of-Colours/Assets/Scripts/GameLogic/LampManager.cs:76-81 | the nulls are removed in place and the result is the non-null entries in their original order |
| Lamps.LampManager.GetLampCount | Veil-of-Colours/Assets/Scripts/GameLogic/LampManager.cs:83-87 | the nulls are removed in place and the count is the number of non-null entries |
| Lamps.PruneIdempotent | Veil-of-Colours/Assets/Scripts/GameLogic/LampManager.cs:79 | a pruned list holds no null, and pruning it again changes nothing |
| Engine.PresentWrap | Veil-of-Colours/Assets/Scripts/GameLogic/LampManager.cs:79 | dropping the nulls of a list that has none gives back its elements |
| Engine.PresentNoDuplicates | Veil-of-Colours/Assets/Scripts/GameLogic/LampManager.cs:54-74 | skipping nulls keeps a duplicate-free list duplicate-free, so a colour pass over a duplicate-free lamp list visits each lamp once |
| Engine.Present | Veil-of-Colours/Assets/Scripts/GameLogic/LampManager.cs:56-62 | the non-null entries: as many as the input has non-null slots, each of which is in the input, with every non-null input entry kept |
| Engine.IndexOf | Veil-of-Colours/Assets/Scripts/GameLogic/CheckpointManager.cs:39 | the position of the first occurrence, or -1 exactly when the element is absent |
| Engine.AddIfAbsent | Veil-of-Colours/Assets/Scripts/GameLogic/CheckpointManager.cs:30-31 | the element is appended exactly when absent, the old list is a prefix, and a duplicate-free list stays duplicate-free |
| ColorLayers.SetAll | Veil-of-Colours/Assets/Scripts/GameLogic/ColorManager.cs:144-150 | every non-null tilemap of the list gets the visibility value; every other flag is kept |
| ColorLayers.AppliedLayers | Veil-of-Colours/Assets/Scripts/GameLogic/ColorManager.cs:133-158 | a null group array or an out-of-range index changes nothing; otherwise the group pass runs, and the background is set only when the index has a background colour |
| ColorLayers.VisibleUnlessSelected | Veil-of-Colours/Assets/Scripts/GameLogic/ColorManager.cs:138-152 | with disjoint groups, every non-null tilemap of group `i` is active if and only if `i` is not the selected index |
| ColorLayers.UngroupedUntouched | Veil-of-Colours/Assets/Scripts/GameLogic/ColorManager.cs:138-152 | a tilemap in no group keeps its flag |
| ColorLayers.ApplyColorLayerVisibility | Veil-of-Colours/Assets/Scripts/GameLogic/ColorManager.cs:133-158 | for a valid index, a grouped tilemap ends up active if and only if its group is not the selected one |
| ColorLayers.ColorName | Veil-of-Colours/Assets/Scripts/GameLogic/ColorManager.cs:184-191 | the group's name for an in-range index and "Unknown" otherwise; a null group array with a non-negative index throws |
| ColorLayers.ColorManager.constructor | Veil-of-Colours/Assets/Scripts/GameLogic/ColorManager.cs:14-33 | the configured colour groups and background colours are kept (the serialized defaults are `DefaultBackgroundColors`), and the active index starts at 0 |
| ColorLayers.ColorManager.Start | Veil-of-Colours/Assets/Scripts/GameLogic/ColorManager.cs:53-59 | outside a session the layer of index 0 is applied; otherwise nothing changes |
| ColorLayers.ColorManager.OnNetworkSpawn | Veil-of-Colours/Assets/Scripts/GameLogic/ColorManager.cs:61-66 | the change handler is registered and the current index's layer applied |
| ColorLayers.ColorManager.OnNetworkDespawn | Veil-of-Colours/Assets/Scripts/GameLogic/ColorManager.cs:68-76 | the change handler is removed |
| ColorLayers.ColorManager.OnColorChanged | Veil-of-Colours/Assets/Scripts/GameLogic/ColorManager.cs:78-82 | the new index's layer is applied, then every non-null lamp re-applies its colour; a missing lamp manager throws |
| ColorLayers.ColorManager.RequestColorChange | Veil-of-Colours/Assets/Scripts/GameLogic/ColorManager.cs:84-94 | a client only forwards the request; the server or host writes the index without a range check, raising a change exactly when it differs |
| ColorLayers.ColorManager.RequestColorChangeServer | Veil-of-Colours/Assets/Scripts/GameLogic/ColorManager.cs:96-100 | the index takes the requested value, with a change exactly when it differs |
| ColorLayers.ColorManager.RequestColorPreview | Veil-of-Colours/Assets/Scripts/GameLogic/ColorManager.cs:102-112 | the active index is never written; a client only forwards the request and changes nothing; the server or host sends the preview broadcast to every instance and applies its own copy (preview layer and lamp tint) |
| ColorLayers.ColorManager.RequestColorPreviewServer | Veil-of-Colours/Assets/Scripts/GameLogic/ColorManager.cs:114-118 | the server handles a forwarded preview by sending the preview broadcast to every instance and applying its own copy; the active index is never written |
| ColorLayers.ColorManager.ApplyColorPreviewClientRpc | Veil-of-Colours/Assets/Scripts/GameLogic/ColorManager.cs:120-131 | the previewed layer is applied and, when a lamp manager exists, every non-null lamp gets the previewed index |
| ColorLayers.ColorManager.ApplyColorLayer | Veil-of-Colours/Assets/Scripts/GameLogic/ColorManager.cs:133-158 | the layers become `AppliedLayers` of the old ones |
| ColorLayers.ColorManager.SetBackgroundColor | Veil-of-Colours/Assets/Scripts/GameLogic/ColorManager.cs:160-177 | the background shows the colour |
| ColorWheel.NormalizeAngle | Veil-of-Colours/Assets/Scripts/GameLogic/ColorWheel.cs:129-130 | a negative angle gets 360 added and any other is kept, so an arctangent angle lands in [0, 360) |
| ColorWheel.SectorIndex | Veil-of-Colours/Assets/Scripts/GameLogic/ColorWheel.cs:129-141 | the index is always 0..3: [45,135) gives 1, [135,225) gives 0, [225,315) gives 3, the rest gives 2, on the normalised angle |
| ColorWheel.HandleInput | Veil-of-Colours/Assets/Scripts/GameLogic/ColorWheel.cs:89-101 | the wheel opens only when closed and above the activation threshold, and closes only when open and below the deadzone; closing hands on the selection exactly when there is one; the selection follows the stick only while open and above the deadzone |
| ColorWheel.SelectThenRelease | Veil-of-Colours/Assets/Scripts/GameLogic/ColorWheel.cs:111-123 | pushing the stick and releasing it hands on the pointed sector and leaves the wheel closed with no selection |
| ColorWheel.CurrentColor | Veil-of-Colours/Assets/Scripts/GameLogic/ColorWheel.cs:190-200 | the available colour for the manager's index, or white without a manager or for an index out of range |
| ColorWheel.SelectionRequest | Veil-of-Colours/Assets/Scripts/GameLogic/ColorWheel.cs:173-188 | a change is requested exactly for an index inside the available colours, with the manager present and spawned, and it carries that index |
| ColorWheel.ColorWheel.constructor | Veil-of-Colours/Assets/Scripts/GameLogic/ColorWheel.cs:26-46 | the configured thresholds and colours are kept (the serialized defaults are 0.3, 0.2 and `DefaultAvailableColors`); the wheel starts closed with selection -1 |
| ColorWheel.ColorWheel.Start | Veil-of-Colours/Assets/Scripts/GameLogic/ColorWheel.cs:67-71 | the wheel UI, when present, is hidden |
| ColorWheel.ColorWheel.Update | Veil-of-Colours/Assets/Scripts/GameLogic/ColorWheel.cs:73-79 | only the owner's wheel reads input; the new state is `HandleInput` of the old one; the UI is shown exactly when the wheel opens, hidden when it closes, and kept on frames that do not toggle it |
| ColorWheel.ColorWheel.HandleColorWheelInput | Veil-of-Colours/Assets/Scripts/GameLogic/ColorWheel.cs:81-102 | without an input action nothing changes; otherwise the new state and the request are those of `HandleInput`, and the UI follows the open flag when it toggles and is kept otherwise |
| ColorWheel.ColorWheel.OpenColorWheel | Veil-of-Colours/Assets/Scripts/GameLogic/ColorWheel.cs:104-109 | the wheel is open and its UI shown when present |
| ColorWheel.ColorWheel.CloseColorWheel | Veil-of-Colours/Assets/Scripts/GameLogic/ColorWheel.cs:111-123 | the wheel is closed, a selection is handed on only if it is at least 0, and the selection is reset to -1 |
| ColorWheel.ColorWheel.UpdateColorSelection | Veil-of-Colours/Assets/Scripts/GameLogic/ColorWheel.cs:125-149 | the selection becomes the sector of the angle |
| ColorWheel.ColorWheel.ApplyColorSelection | Veil-of-Colours/Assets/Scripts/GameLogic/ColorWheel.cs:173-188 | the request is `SelectionRequest` of the index and the manager's presence and spawn state |
| ColorWheel.ColorWheel.GetCurrentColorIndex | Veil-of-Colours/Assets/Scripts/GameLogic/ColorWheel.cs:202-209 | the manager's active index, or 0 without a manager |
| Scenarios.CrossWiredDoors | Veil-of-Colours/Assets/Scripts/GameMechanic/PuzzleManager.cs:100-104 | turning toggle switch A on opens door B and not door A; turning it off again closes door B and deactivates the switch |
| Scenarios.Toggle | Veil-of-Colours/Assets/Scripts/Networking/NetworkedSwitch.cs:90-107 | one press travels from switch to server and back, the tick moves door B to the switch's value, and door B comes to rest with its collider matching |
| Scenarios.IdempotentWrites | Veil-of-Colours/Assets/Scripts/GameMechanic/PuzzleManager.cs:53-70 | a second identical switch write and a second tick raise no event |
| Scenarios.KeyGating | Veil-of-Colours/Assets/Scripts/GameLogic/ItemManager.cs:157-192 | `HasKey` is false before the server collects the key, unaffected by a body run off the server (the guard at line 159), true after, and false for a destroyed (null) object |
| Scenarios.DefaultWheelPick | Veil-of-Colours/Assets/Scripts/GameLogic/ColorWheel.cs:26-43 | with the default thresholds and colours, pushing the stick up opens the wheel and shows it, and releasing closes and hides it and requests index 1, whose colour is red |
| Scenarios.DefaultBackground | Veil-of-Colours/Assets/Scripts/GameLogic/ColorManager.cs:19-28 | with the default background colours, applying colour 1 hides group 1, shows group 0 and sets the background to the second default colour |
| Scenarios.PlatePressedTwice | Veil-of-Colours/Assets/Scripts/GameLogic/PressurePlateManager.cs:100-111 | the first press on the server broadcasts, a second identical press and an out-of-range index do nothing, and the client opens the plate's door |

## Left out

- Positions, physics and animation are not modelled: door movement, collider bounds, `Vector3.MoveTowards`, the distance test, and the wheel's selector visual (`UpdateSelectorVisual`). Door arrival is the boolean `reachedTarget`. The stick angle is a `real` parameter, because `Atan2` is floating-point engine code.
- `Color` components and the wheel thresholds are exact reals; floating-point rounding is not modelled.
- Netcode replication is not modelled. `NetworkVariable`/`NetworkList` synchronisation, RPC delivery to remote peers and ordering between clients are left out. RPCs are direct calls, and sent RPCs are returned values.
- Change events are only the set of events a write raises. Delivery to subscribers is explicit, through each class's `Receive`; the manager's event lists are not modelled.
- Singleton `Awake` methods are left out, except for the shared key table in `KeyInventory`. This covers `PuzzleManager`, `ItemManager` (network), `PressurePlateManager`, `CheckpointManager`, `LampManager` and `ColorManager`. Each `Instance` lookup is a parameter instead (`managerExists`, a nullable manager or lamp manager). `DontDestroyOnLoad` is left out.
- `Start` and `CacheComponents`/`CalculatePositions` of the doors and switches are left out (component lookup and positions). So are the switches' `UpdateVisuals` sprite colour, `OnDrawGizmos` and all logging.
- The client RPCs `TriggerSpecificDoorsClientRpc`, `TriggerOpenGateClientRpc` and `ActivateDoorClient` in the network `ItemManager` are left out. They act on `Item.cs` objects, which are not part of this model. The server returns them as `Broadcast` values.
- `OnCollisionEnter2D`/`UseItem` of the key `ItemManager` invoke a `UnityEvent` whose listeners are scene configuration. They are left out; `CollectKey` and `UseKey` are modelled directly.
- `TeleportToLastCheckpoint` is left out (tag lookup, transform and rigidbody writes); `GetLastCheckpoint` is modelled. `CheckpointScript.Reset` is editor set-up and is left out.
- `SetBackgroundColor` does not model the camera search or the per-camera loop; the background is one colour value.
- `Lamp.ApplyLampColor` and `Lamp.SetLampColor` are called but not defined in `Lamp.cs`, so they are not modelled. The colour passes return the lamps they visit instead.
- `Lamps.LampManager.GetAllLamps`: returns the pruned lamps as a value, not the list object; aliasing between the returned list and the field is not modelled.
- `RegisterAllLampsInScene` gets the scene search result as a parameter, because `FindObjectsByType` is engine code.
- Serialized arrays (`backgroundColors`, `availableColors`) are never null, as Unity's serializer creates them; they are plain sequences.
- The colour-group entries are non-null values; only each group's tilemap array and its entries may be null. `OnNetworkDespawn`'s null check on the network variable always passes and is not modelled.
- `ColorWheel.OnEnable`/`OnDisable` only enable input actions and are left out. The input action being assigned is the flag `hasAction`.
- `ColorLayers.ColorManager.GetActiveColorIndex`, `ColorLayers.ColorManager.GetActiveColorName`, `Checkpoints.CheckpointManager.GetLastCheckpoint` and `ColorWheel.ColorWheel.GetCurrentColor` are read-only accessors with no contract of their own. Their meaning is stated by `ColorLayers.ColorName`, `Checkpoints.LastCheckpoint` and `ColorWheel.CurrentColor`.
