/** End-to-end runs of the classes above through the system's documented
    scenarios, with every server call made directly and every change event
    delivered to the subscribers by hand. */
module Scenarios {
  import opened Engine
  import opened Puzzle
  import NS = NetworkingSwitch
  import ND = NetworkingDoor
  import IR = ItemRegistry
  import PP = PressurePlates
  import CL = ColorLayers
  import CW = ColorWheel

  /** A toggle switch A and two doors A and B, cross-wired by the manager's tick:
      turning switch A on opens door B and leaves door A closed, and turning it
      off again closes door B. */
  method CrossWiredDoors() returns (doorBAfterOn: bool, doorAAfterOn: bool, doorBAfterOff: bool, switchAAfterOff: bool)
    ensures doorBAfterOn && !doorAAfterOn && !doorBAfterOff && !switchAAfterOff
  {
    var manager := new PuzzleManager();
    var switchA := new NS.NetworkedSwitch("A", true);
    var doorA := new ND.NetworkedDoor("A", true, true);
    var doorB := new ND.NetworkedDoor("B", true, true);
    switchA.OnEnable(true);
    doorA.OnEnable(true);
    doorB.OnEnable(true);
    switchA.OnTriggerEnter2D("Player");
    Toggle(manager, switchA, doorA, doorB, true);
    doorBAfterOn, doorAAfterOn := doorB.isOpen, doorA.isOpen;
    Toggle(manager, switchA, doorA, doorB, false);
    doorBAfterOff, switchAAfterOff := doorB.isOpen, switchA.isActive;
  }

  /** One press of switch A by a nearby player while the doors are at rest and in
      step with the switches: the proposal reaches the server, the confirmation
      reaches the switch, the next tick moves door B, and door B comes to rest. */
  method Toggle(manager: PuzzleManager, switchA: NS.NetworkedSwitch, doorA: ND.NetworkedDoor,
                doorB: ND.NetworkedDoor, on: bool)
    requires switchA.switchId == "A" && switchA.isToggle && switchA.subscribed && switchA.isPlayerNearby
    requires doorA.doorId == "A" && doorA.subscribed && doorB.doorId == "B" && doorB.subscribed && doorB.hasCollider
    requires switchA.isActive == !on && manager.State() == Initial.(switchA := !on, doorBOpen := !on)
    requires doorB.isOpen == !on && !doorB.isMoving && !doorA.isOpen && !doorA.isMoving
    modifies manager, switchA, doorA, doorB
    ensures switchA.isActive == on && switchA.subscribed && switchA.isPlayerNearby
    ensures manager.State() == Initial.(switchA := on, doorBOpen := on)
    ensures doorB.isOpen == on && !doorB.isMoving && doorB.colliderEnabled == !on
    ensures !doorA.isOpen && !doorA.isMoving
    ensures doorA.subscribed && doorB.subscribed
  {
    var request := switchA.Update(true, true, true);
    var events := manager.ActivateSwitchServerRpc(request.value.switchId, request.value.state);
    assert events == {SwitchAChanged(on)};
    switchA.Receive(SwitchAChanged(on));
    events := manager.Update(true);
    assert events == {DoorBChanged(on)};
    doorA.Receive(DoorBChanged(on));
    doorB.Receive(DoorBChanged(on));
    doorB.Update(true);
  }

  /** A switch's second identical write raises no event, and a second tick of the
      cross-level rule raises none either. */
  method IdempotentWrites() returns (first: set<PuzzleEvent>, second: set<PuzzleEvent>, secondTick: set<PuzzleEvent>)
    ensures first == {SwitchBChanged(true)} && second == {} && secondTick == {}
  {
    var manager := new PuzzleManager();
    first := manager.ActivateSwitchServerRpc("B", true);
    second := manager.ActivateSwitchServerRpc("B", true);
    var tick := manager.Update(true);
    assert tick == {DoorAChanged(true)};
    secondTick := manager.Update(true);
  }

  /** A key door's check fails before the key is collected and succeeds after; the
      collect body run off the server (its server guard) changes nothing; a destroyed key object (null) no
      longer answers, although its reference stays collected. */
  method KeyGating() returns (before: bool, offServer: bool, after: bool, destroyedObject: bool)
    ensures !before && !offServer && after && !destroyedObject
  {
    var items := new IR.ItemManager([], []);
    var key := IR.GameObject(5, Some(50));
    before := items.HasKey(Some(key));
    items.CollectKeyServerRpc(false, 50);
    offServer := items.HasKey(Some(key));
    items.CollectKeyServerRpc(true, 50);
    after := items.HasKey(Some(key));
    destroyedObject := items.HasKey(None);
    assert 50 in items.collectedKeys && items.isKeyCollected;
  }

  /** Pressing a plate on the server broadcasts once; pressing it again, or
      pressing a plate index that does not exist, does nothing. */
  method PlatePressedTwice() returns (first: Option<PP.PlateBroadcast>, second: Option<PP.PlateBroadcast>,
                                      outOfRange: Option<PP.PlateBroadcast>, door: Option<PP.DoorCommand>)
    ensures first == Some(PP.ActivatePlateClientRpc(0, true)) && second == None && outOfRange == None
    ensures door == Some(PP.OpenDoor(21))
  {
    var plate := PP.SceneObject(1, Some(10), None);
    var doorObject := PP.SceneObject(2, None, Some(21));
    var plates := new PP.PressurePlateManager([Some(plate), None], [Some(doorObject)]);
    plates.BuildArraysFromGameObjects();
    assert plates.plates[0] == Some(10);
    var request;
    request, first := plates.RequestActivatePlateObject(Some(plate), true, true);
    assert plates.plateStates.Length == 2 && plates.plateStates[0];
    request, second := plates.RequestActivatePlate(0, true, true);
    request, outOfRange := plates.RequestActivatePlate(2, true, true);
    var shown;
    shown, door := plates.ActivatePlateClient(0, true);
  }

  /** A wheel with the default settings: pushing the stick up opens it and shows
      the UI, releasing it closes it, hides the UI and requests the top sector's
      colour index, which is red among the default colours. */
  method DefaultWheelPick() returns (openShown: bool, request: Option<int>, closedShown: bool, color: Color)
    ensures openShown && request == Some(1) && !closedShown
    ensures color == Color(1.0, 0.0, 0.0, 1.0)
  {
    var wheel := new CW.ColorWheel(CW.ActivationThreshold, CW.SelectionDeadzone, CW.DefaultAvailableColors, true, true);
    request := wheel.Update(true, 0.5, 90.0, true, true);
    assert wheel.State() == CW.Wheel(true, 1);
    openShown := wheel.uiShown;
    request := wheel.Update(true, 0.1, 90.0, true, true);
    closedShown := wheel.uiShown;
    color := CW.CurrentColor(wheel.availableColors, request);
  }

  /** A manager with the default background colours: applying colour 1 hides
      group 1, shows group 0 and gives the background the second default colour. */
  method DefaultBackground() returns (shown: bool, hidden: bool, background: Option<Color>)
    ensures shown && !hidden && background == Some(Color(0.8, 0.2, 0.2, 1.0))
  {
    var groups := [CL.ColorLayerGroup("Blue", Some([Some(1)])), CL.ColorLayerGroup("Red", Some([Some(2)]))];
    var manager := new CL.ColorManager(Some(groups), CL.DefaultBackgroundColors, map[]);
    manager.ApplyColorLayer(1);
    CL.ApplyColorLayerVisibility(Some(groups), CL.DefaultBackgroundColors, CL.Layers(map[], None), 1, 0, 1);
    CL.ApplyColorLayerVisibility(Some(groups), CL.DefaultBackgroundColors, CL.Layers(map[], None), 1, 1, 2);
    shown := manager.tilemapActive[1];
    hidden := manager.tilemapActive[2];
    background := manager.backgroundColor;
  }
}
