/** The colour-layer manager: a server-owned active colour index, and the rule that
    hides the tilemaps of the selected colour group and shows every other group. */
module ColorLayers {
  import opened Engine
  import Lamps

  type TilemapId = ObjectId

  /** One colour's tilemaps, as configured; the tilemap array itself may be null. */
  datatype ColorLayerGroup = ColorLayerGroup(colorName: string, tilemaps: Option<seq<Option<TilemapId>>>)

  /** The default background colour for each colour index. */
  const DefaultBackgroundColors: seq<Color> := [
    Color(0.2, 0.2, 0.8, 1.0),
    Color(0.8, 0.2, 0.2, 1.0),
    Color(0.2, 0.8, 0.2, 1.0),
    Color(1.0, 1.0, 0.3, 1.0)
  ]

  /** What the layer rule writes: each tilemap's active flag, and the colour the
      background cameras show (none before the first write). */
  datatype Layers = Layers(tilemapActive: map<TilemapId, bool>, backgroundColor: Option<Color>)

  /** Tilemap `t` is one of the group's non-null tilemaps. */
  predicate InGroup(g: ColorLayerGroup, t: TilemapId)
  {
    g.tilemaps.Some? && Some(t) in g.tilemaps.value
  }

  /** No tilemap belongs to two groups. */
  ghost predicate Disjoint(groups: seq<ColorLayerGroup>)
  {
    forall i, j, t :: 0 <= i < j < |groups| && InGroup(groups[i], t) ==> !InGroup(groups[j], t)
  }

  /** The flags after setting each non-null tilemap of the list to `visible`. */
  function SetAll(active: map<TilemapId, bool>, tilemaps: seq<Option<TilemapId>>, visible: bool)
    : (r: map<TilemapId, bool>)
    ensures forall t :: t in r <==> t in active || Some(t) in tilemaps
    ensures forall t :: t in r ==> r[t] == if Some(t) in tilemaps then visible else active[t]
    decreases |tilemaps|
  {
    if |tilemaps| == 0 then active
    else
      var init := tilemaps[..|tilemaps| - 1];
      assert tilemaps == init + [tilemaps[|tilemaps| - 1]];
      var a := SetAll(active, init, visible);
      if tilemaps[|tilemaps| - 1].Some? then a[tilemaps[|tilemaps| - 1].value := visible] else a
  }

  /** The flags after the pass over the groups: group `i` is shown unless
      `i == colorIndex`, and a group whose tilemap array is null is skipped. */
  function LayersAfter(active: map<TilemapId, bool>, groups: seq<ColorLayerGroup>, colorIndex: int)
    : map<TilemapId, bool>
    decreases |groups|
  {
    if |groups| == 0 then active
    else
      var a := LayersAfter(active, groups[..|groups| - 1], colorIndex);
      var g := groups[|groups| - 1];
      if g.tilemaps.Some? then SetAll(a, g.tilemaps.value, |groups| - 1 != colorIndex) else a
  }

  /** The whole effect of applying a colour layer: nothing at all for a null group
      array or an index outside it; otherwise the group pass, and the background
      colour for that index when there is one. */
  function AppliedLayers(colorGroups: Option<seq<ColorLayerGroup>>, backgroundColors: seq<Color>,
                         layers: Layers, colorIndex: int): (r: Layers)
    ensures colorGroups.None? || !(0 <= colorIndex < |colorGroups.value|) ==> r == layers
    ensures colorGroups.Some? && 0 <= colorIndex < |colorGroups.value| ==>
      r.tilemapActive == LayersAfter(layers.tilemapActive, colorGroups.value, colorIndex)
    ensures colorIndex < |backgroundColors| && colorGroups.Some? && 0 <= colorIndex < |colorGroups.value| ==>
      r.backgroundColor == Some(backgroundColors[colorIndex])
    ensures colorIndex >= |backgroundColors| ==> r.backgroundColor == layers.backgroundColor
  {
    if colorGroups.None? || colorIndex < 0 || colorIndex >= |colorGroups.value| then layers
    else
      Layers(LayersAfter(layers.tilemapActive, colorGroups.value, colorIndex),
             if colorIndex < |backgroundColors| then Some(backgroundColors[colorIndex])
             else layers.backgroundColor)
  }

  /** With disjoint groups, every tilemap of group `i` ends up active exactly when
      `i` is not the selected index. */
  lemma {:induction false} VisibleUnlessSelected(active: map<TilemapId, bool>, groups: seq<ColorLayerGroup>,
                                                 colorIndex: int, i: int, t: TilemapId)
    requires Disjoint(groups) && 0 <= i < |groups| && InGroup(groups[i], t)
    ensures t in LayersAfter(active, groups, colorIndex)
    ensures LayersAfter(active, groups, colorIndex)[t] == (i != colorIndex)
    decreases |groups|
  {
    var n := |groups|;
    var init := groups[..n - 1];
    var g := groups[n - 1];
    if i < n - 1 {
      assert init[i] == groups[i];
      assert Disjoint(init) by {
        forall a, b, u | 0 <= a < b < |init| && InGroup(init[a], u) ensures !InGroup(init[b], u) {
          assert init[a] == groups[a] && init[b] == groups[b];
        }
      }
      VisibleUnlessSelected(active, init, colorIndex, i, t);
      assert !InGroup(g, t);
    }
  }

  /** A tilemap that belongs to no group keeps its flag (or stays unset). */
  lemma {:induction false} UngroupedUntouched(active: map<TilemapId, bool>, groups: seq<ColorLayerGroup>,
                                              colorIndex: int, t: TilemapId)
    requires forall i :: 0 <= i < |groups| ==> !InGroup(groups[i], t)
    ensures t in LayersAfter(active, groups, colorIndex) <==> t in active
    ensures t in active ==> LayersAfter(active, groups, colorIndex)[t] == active[t]
    decreases |groups|
  {
    var n := |groups|;
    if n > 0 {
      var init := groups[..n - 1];
      assert forall i :: 0 <= i < |init| ==> init[i] == groups[i];
      UngroupedUntouched(active, init, colorIndex, t);
      assert !InGroup(groups[n - 1], t);
    }
  }

  /** The visibility rule for a valid index: a grouped tilemap is active exactly
      when its group is not the selected one, and an ungrouped one is untouched. */
  lemma ApplyColorLayerVisibility(colorGroups: Option<seq<ColorLayerGroup>>, backgroundColors: seq<Color>,
                                  layers: Layers, colorIndex: int, i: int, t: TilemapId)
    requires colorGroups.Some? && 0 <= colorIndex < |colorGroups.value| && Disjoint(colorGroups.value)
    requires 0 <= i < |colorGroups.value| && InGroup(colorGroups.value[i], t)
    ensures t in AppliedLayers(colorGroups, backgroundColors, layers, colorIndex).tilemapActive
    ensures AppliedLayers(colorGroups, backgroundColors, layers, colorIndex).tilemapActive[t] <==> i != colorIndex
  {
    VisibleUnlessSelected(layers.tilemapActive, colorGroups.value, colorIndex, i, t);
  }

  /** The name a colour index shows: the group's name for an index inside the
      group array, "Unknown" for a negative or too large one; with a null group
      array, a non-negative index dereferences it and throws. */
  function ColorName(colorGroups: Option<seq<ColorLayerGroup>>, index: int): (r: Fallible<string>)
    ensures r.NullReference? <==> index >= 0 && colorGroups.None?
    ensures colorGroups.Some? && 0 <= index < |colorGroups.value| ==>
      r == Returns(colorGroups.value[index].colorName)
    ensures index < 0 || (colorGroups.Some? && index >= |colorGroups.value|) ==> r == Returns("Unknown")
  {
    if index < 0 then Returns("Unknown")
    else if colorGroups.None? then NullReference
    else if index < |colorGroups.value| then Returns(colorGroups.value[index].colorName)
    else Returns("Unknown")
  }

  /** A client's request to the server. */
  datatype ColorRequest = RequestColorChangeServerRpc(colorIndex: int) | RequestColorPreviewServerRpc(colorIndex: int)

  /** The broadcast the server or host sends to every instance, itself included. */
  datatype ColorBroadcast = ApplyColorPreviewBroadcast(colorIndex: int)

  class ColorManager {
    const colorGroups: Option<seq<ColorLayerGroup>>
    const backgroundColors: seq<Color>
    var activeColorIndex: int
    var tilemapActive: map<TilemapId, bool>
    var backgroundColor: Option<Color>
    /** Whether `OnColorChanged` is registered with the index's change event. */
    var subscribed: bool

    function LayerState(): Layers
      reads this
    {
      Layers(tilemapActive, backgroundColor)
    }

    /** A manager as the scene configures it (`DefaultBackgroundColors` are the
        serialized defaults). */
    constructor (colorGroups: Option<seq<ColorLayerGroup>>, backgroundColors: seq<Color>,
                 tilemapActive: map<TilemapId, bool>)
      ensures this.colorGroups == colorGroups && this.backgroundColors == backgroundColors
      ensures this.tilemapActive == tilemapActive && backgroundColor == None
      ensures activeColorIndex == 0 && !subscribed
    {
      this.colorGroups := colorGroups;
      this.backgroundColors := backgroundColors;
      this.tilemapActive := tilemapActive;
      backgroundColor := None;
      activeColorIndex := 0;
      subscribed := false;
    }

    /** Outside a network session the first colour layer is applied at start. */
    method Start(isSpawned: bool)
      modifies this`tilemapActive, this`backgroundColor
      ensures LayerState() == if isSpawned then old(LayerState()) else AppliedLayers(colorGroups, backgroundColors, old(LayerState()), 0)
    {
      if !isSpawned {
        ApplyColorLayer(0);
      }
    }

    method OnNetworkSpawn()
      modifies this`subscribed, this`tilemapActive, this`backgroundColor
      ensures subscribed && activeColorIndex == old(activeColorIndex)
      ensures LayerState() == AppliedLayers(colorGroups, backgroundColors, old(LayerState()), activeColorIndex)
    {
      subscribed := true;
      ApplyColorLayer(activeColorIndex);
    }

    method OnNetworkDespawn()
      modifies this`subscribed
      ensures !subscribed
    {
      subscribed := false;
    }

    /** The index's change handler: applies the new layer, then tells every lamp to
        re-apply its colour; the lamp manager is not checked for null. */
    method OnColorChanged(previousValue: int, newValue: int, lamps: Lamps.LampManager?)
      returns (outcome: Fallible<seq<Lamps.LampId>>)
      modifies this`tilemapActive, this`backgroundColor
      ensures LayerState() == AppliedLayers(colorGroups, backgroundColors, old(LayerState()), newValue)
      ensures lamps == null ==> outcome == NullReference
      ensures lamps != null ==> outcome == Returns(Present(lamps.allLamps))
    {
      ApplyColorLayer(newValue);
      if lamps == null {
        return NullReference;
      }
      var applied := lamps.ApplyColorToAllLamps();
      outcome := Returns(applied);
    }

    /** The server (or host) writes the index directly, without a range check; a
        client forwards the request. `changed` says whether the write raised the
        index's change event. */
    method RequestColorChange(colorIndex: int, isServer: bool, isHost: bool)
      returns (request: Option<ColorRequest>, changed: bool)
      modifies this`activeColorIndex
      ensures !isServer && !isHost ==>
        request == Some(RequestColorChangeServerRpc(colorIndex)) && activeColorIndex == old(activeColorIndex) && !changed
      ensures isServer || isHost ==>
        request == None && activeColorIndex == colorIndex && changed == (colorIndex != old(activeColorIndex))
    {
      if !isServer && !isHost {
        request, changed := Some(RequestColorChangeServerRpc(colorIndex)), false;
      } else {
        request := None;
        changed := RequestColorChangeServer(colorIndex);
      }
    }

    /** The server side of a forwarded request. */
    method RequestColorChangeServer(colorIndex: int) returns (changed: bool)
      modifies this`activeColorIndex
      ensures activeColorIndex == colorIndex && changed == (colorIndex != old(activeColorIndex))
    {
      changed := activeColorIndex != colorIndex;
      activeColorIndex := colorIndex;
    }

    /** A preview: a client forwards it to the server; the server (or host) sends
        the preview broadcast to every instance, and its own copy is applied here.
        The active index is never written. */
    method RequestColorPreview(colorIndex: int, isServer: bool, isHost: bool, lamps: Lamps.LampManager?)
      returns (request: Option<ColorRequest>, broadcast: Option<ColorBroadcast>, tinted: seq<(Lamps.LampId, int)>)
      modifies this`tilemapActive, this`backgroundColor
      ensures activeColorIndex == old(activeColorIndex)
      ensures !isServer && !isHost ==>
        request == Some(RequestColorPreviewServerRpc(colorIndex)) && broadcast == None &&
        LayerState() == old(LayerState()) && tinted == []
      ensures isServer || isHost ==>
        request == None && broadcast == Some(ApplyColorPreviewBroadcast(colorIndex)) &&
        LayerState() == AppliedLayers(colorGroups, backgroundColors, old(LayerState()), colorIndex) &&
        tinted == (if lamps == null then [] else Lamps.Tagged(Present(lamps.allLamps), colorIndex))
    {
      if !isServer && !isHost {
        request, broadcast, tinted := Some(RequestColorPreviewServerRpc(colorIndex)), None, [];
      } else {
        request := None;
        broadcast, tinted := RequestColorPreviewServer(colorIndex, lamps);
      }
    }

    /** The server side of a forwarded preview: the broadcast goes to every
        instance, and the server's own copy is applied here. */
    method RequestColorPreviewServer(colorIndex: int, lamps: Lamps.LampManager?)
      returns (broadcast: Option<ColorBroadcast>, tinted: seq<(Lamps.LampId, int)>)
      modifies this`tilemapActive, this`backgroundColor
      ensures activeColorIndex == old(activeColorIndex)
      ensures broadcast == Some(ApplyColorPreviewBroadcast(colorIndex))
      ensures LayerState() == AppliedLayers(colorGroups, backgroundColors, old(LayerState()), colorIndex)
      ensures tinted == if lamps == null then [] else Lamps.Tagged(Present(lamps.allLamps), colorIndex)
    {
      broadcast := Some(ApplyColorPreviewBroadcast(colorIndex));
      tinted := ApplyColorPreviewClientRpc(colorIndex, lamps);
    }

    /** The preview broadcast on one instance: the layer of `colorIndex` is shown and
        the lamps, when a lamp manager exists, are given that colour index. */
    method ApplyColorPreviewClientRpc(colorIndex: int, lamps: Lamps.LampManager?)
      returns (tinted: seq<(Lamps.LampId, int)>)
      modifies this`tilemapActive, this`backgroundColor
      ensures LayerState() == AppliedLayers(colorGroups, backgroundColors, old(LayerState()), colorIndex)
      ensures tinted == if lamps == null then [] else Lamps.Tagged(Present(lamps.allLamps), colorIndex)
    {
      ApplyColorLayer(colorIndex);
      tinted := [];
      if lamps != null {
        tinted := lamps.ApplyColorIndexToAllLamps(colorIndex);
      }
    }

    method ApplyColorLayer(colorIndex: int)
      modifies this`tilemapActive, this`backgroundColor
      ensures LayerState() == AppliedLayers(colorGroups, backgroundColors, old(LayerState()), colorIndex)
    {
      if colorGroups.None? || colorIndex < 0 || colorIndex >= |colorGroups.value| {
        return;
      }
      var groups := colorGroups.value;
      var i := 0;
      while i < |groups|
        invariant 0 <= i <= |groups|
        invariant tilemapActive == LayersAfter(old(tilemapActive), groups[..i], colorIndex)
        invariant backgroundColor == old(backgroundColor)
      {
        var shouldBeVisible := i != colorIndex;
        assert groups[..i + 1][..i] == groups[..i];
        if groups[i].tilemaps.Some? {
          var tilemaps := groups[i].tilemaps.value;
          ghost var start := tilemapActive;
          var j := 0;
          while j < |tilemaps|
            invariant 0 <= j <= |tilemaps|
            invariant tilemapActive == SetAll(start, tilemaps[..j], shouldBeVisible)
            invariant backgroundColor == old(backgroundColor)
          {
            assert tilemaps[..j + 1][..j] == tilemaps[..j];
            if tilemaps[j].Some? {
              tilemapActive := tilemapActive[tilemaps[j].value := shouldBeVisible];
            }
            j := j + 1;
          }
          assert tilemaps[..j] == tilemaps;
        }
        i := i + 1;
      }
      assert groups[..i] == groups;
      if colorIndex < |backgroundColors| {
        SetBackgroundColor(backgroundColors[colorIndex]);
      }
    }

    /** Every background camera shows the colour. */
    method SetBackgroundColor(color: Color)
      modifies this`backgroundColor
      ensures backgroundColor == Some(color)
    {
      backgroundColor := Some(color);
    }

    function GetActiveColorIndex(): int
      reads this
    {
      activeColorIndex
    }

    function GetActiveColorName(): Fallible<string>
      reads this
    {
      ColorName(colorGroups, activeColorIndex)
    }
  }
}
