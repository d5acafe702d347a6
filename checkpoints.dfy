/** The checkpoint registry: a duplicate-free list of checkpoints in registration
    order and the index of the one activated last (-1 before any activation), plus
    the one-shot trigger each checkpoint carries. */
module Checkpoints {
  import opened Engine

  /** The registry's fields as a value. */
  datatype Registry = Registry(activeCheckpoints: seq<ObjectId>, lastActiveIndex: int)

  /** An empty list and no activation. */
  const Empty := Registry([], -1)

  /** The registry invariant: no checkpoint twice, and the index is -1 or a position
      of the list. */
  predicate WellFormed(g: Registry)
  {
    NoDuplicates(g.activeCheckpoints) && -1 <= g.lastActiveIndex < |g.activeCheckpoints|
  }

  /** The list after registering `cp`: a null is ignored, a known checkpoint is not
      added again, a new one goes at the end. */
  function Register(list: seq<ObjectId>, cp: Option<ObjectId>): (r: seq<ObjectId>)
    ensures list <= r && |r| <= |list| + 1
    ensures cp.Some? ==> cp.value in r
    ensures cp.None? || cp.value in list ==> r == list
    ensures |r| == |list| + 1 ==> r[|list|] == cp.value
    ensures NoDuplicates(list) ==> NoDuplicates(r)
  {
    if cp.None? then list else AddIfAbsent(list, cp.value)
  }

  /** Activation: the checkpoint is registered if needed and becomes the last
      active one; a null changes nothing. */
  function Activate(g: Registry, cp: Option<ObjectId>): (r: Registry)
    ensures r.activeCheckpoints == Register(g.activeCheckpoints, cp)
    ensures cp.None? ==> r == g
    ensures WellFormed(g) ==> WellFormed(r)
    ensures WellFormed(g) && cp.Some? ==> LastCheckpoint(r) == cp
  {
    if cp.None? then g
    else
      var list := Register(g.activeCheckpoints, cp);
      Registry(list, IndexOf(list, cp.value))
  }

  /** The checkpoint activated last, or null when none was. */
  function LastCheckpoint(g: Registry): (r: Option<ObjectId>)
    requires WellFormed(g)
    ensures r.None? <==> g.lastActiveIndex == -1
    ensures r.Some? ==> r.value == g.activeCheckpoints[g.lastActiveIndex] && r.value in g.activeCheckpoints
  {
    if g.lastActiveIndex >= 0 then Some(g.activeCheckpoints[g.lastActiveIndex]) else None
  }

  /** A call on the registry from outside. */
  datatype Call = RegisterCall(cp: Option<ObjectId>) | ActivateCall(cp: Option<ObjectId>)

  function Apply(g: Registry, c: Call): Registry
  {
    match c
    case RegisterCall(cp) => g.(activeCheckpoints := Register(g.activeCheckpoints, cp))
    case ActivateCall(cp) => Activate(g, cp)
  }

  /** The registry after a sequence of calls, in order. */
  function Run(g: Registry, calls: seq<Call>): Registry
    decreases |calls|
  {
    if |calls| == 0 then g else Apply(Run(g, calls[..|calls| - 1]), calls[|calls| - 1])
  }

  /** The last non-null checkpoint passed to an activation, if any. */
  function LastActivated(calls: seq<Call>): Option<ObjectId>
    decreases |calls|
  {
    if |calls| == 0 then None
    else
      var c := calls[|calls| - 1];
      if c.ActivateCall? && c.cp.Some? then c.cp else LastActivated(calls[..|calls| - 1])
  }

  /** Any sequence of calls keeps the invariant, and the list only ever grows. */
  lemma {:induction false} RunKeepsWellFormed(g: Registry, calls: seq<Call>)
    requires WellFormed(g)
    ensures WellFormed(Run(g, calls))
    ensures g.activeCheckpoints <= Run(g, calls).activeCheckpoints
    decreases |calls|
  {
    if |calls| > 0 {
      RunKeepsWellFormed(g, calls[..|calls| - 1]);
    }
  }

  /** From the empty registry, the last checkpoint is the one most recently passed
      to an activation; before any activation there is none. */
  lemma {:induction false} RunLastCheckpoint(calls: seq<Call>)
    ensures WellFormed(Run(Empty, calls))
    ensures LastCheckpoint(Run(Empty, calls)) == LastActivated(calls)
    decreases |calls|
  {
    RunKeepsWellFormed(Empty, calls);
    if |calls| > 0 {
      var prefix := calls[..|calls| - 1];
      RunLastCheckpoint(prefix);
      RunKeepsWellFormed(Empty, prefix);
      var g := Run(Empty, prefix);
      var c := calls[|calls| - 1];
      if c.RegisterCall? {
        assert Run(Empty, calls) == g.(activeCheckpoints := Register(g.activeCheckpoints, c.cp));
        if g.lastActiveIndex >= 0 {
          assert Register(g.activeCheckpoints, c.cp)[g.lastActiveIndex] == g.activeCheckpoints[g.lastActiveIndex];
        }
      }
    }
  }

  /** Activating a checkpoint that is already registered moves the last checkpoint
      back to it and leaves the list as it is. */
  lemma ReactivateEarlier(g: Registry, cp: ObjectId)
    requires WellFormed(g) && cp in g.activeCheckpoints
    ensures Activate(g, Some(cp)).activeCheckpoints == g.activeCheckpoints
    ensures LastCheckpoint(Activate(g, Some(cp))) == Some(cp)
  {
  }

  class CheckpointManager {
    var activeCheckpoints: seq<ObjectId>
    var lastActiveIndex: int

    function State(): Registry
      reads this
    {
      Registry(activeCheckpoints, lastActiveIndex)
    }

    ghost predicate Valid()
      reads this
    {
      WellFormed(State())
    }

    constructor ()
      ensures State() == Empty && Valid()
    {
      activeCheckpoints, lastActiveIndex := [], -1;
    }

    method RegisterCheckpoint(cp: Option<ObjectId>)
      requires Valid()
      modifies this`activeCheckpoints
      ensures Valid()
      ensures activeCheckpoints == Register(old(activeCheckpoints), cp)
    {
      if cp.None? {
        return;
      }
      if cp.value !in activeCheckpoints {
        activeCheckpoints := activeCheckpoints + [cp.value];
      }
    }

    method ActivateCheckpoint(cp: Option<ObjectId>)
      requires Valid()
      modifies this
      ensures Valid()
      ensures State() == Activate(old(State()), cp)
    {
      if cp.None? {
        return;
      }
      RegisterCheckpoint(cp);
      lastActiveIndex := IndexOf(activeCheckpoints, cp.value);
    }

    function GetLastCheckpoint(): Option<ObjectId>
      requires Valid()
      reads this
    {
      LastCheckpoint(State())
    }

    /** A new array holding the registered checkpoints in registration order. */
    method GetActiveCheckpointsArray() returns (a: array<ObjectId>)
      ensures fresh(a) && a[..] == activeCheckpoints
    {
      var list := activeCheckpoints;
      a := new ObjectId[|list|](i => if 0 <= i < |list| then list[i] else 0);
    }
  }

  /** The sprite a renderer shows after `SetSpriteActive(isActive)`: the activated
      sprite when asked to show it and both it and a renderer exist, otherwise the
      sprite it already showed. */
  function SpriteAfter(hasRenderer: bool, activatedSprite: Option<ObjectId>,
                       current: Option<ObjectId>, isActive: bool): (r: Option<ObjectId>)
    ensures !isActive || !hasRenderer || activatedSprite.None? ==> r == current
    ensures isActive && hasRenderer && activatedSprite.Some? ==> r == activatedSprite
  {
    if hasRenderer && activatedSprite.Some? then (if isActive then activatedSprite else current)
    else current
  }

  /** The trigger on one checkpoint object: the first player to enter it activates
      it, once. */
  class CheckpointScript {
    const gameObject: ObjectId
    const hasRenderer: bool
    const activatedCheckpointSprite: Option<ObjectId>
    var activated: bool
    /** The sprite the renderer shows. */
    var sprite: Option<ObjectId>

    constructor (gameObject: ObjectId, hasRenderer: bool,
                 activatedCheckpointSprite: Option<ObjectId>, sprite: Option<ObjectId>)
      ensures this.gameObject == gameObject && this.hasRenderer == hasRenderer
      ensures this.activatedCheckpointSprite == activatedCheckpointSprite
      ensures this.sprite == sprite && !activated
    {
      this.gameObject, this.hasRenderer := gameObject, hasRenderer;
      this.activatedCheckpointSprite, this.sprite := activatedCheckpointSprite, sprite;
      activated := false;
    }

    /** A non-player collider, or any entry after the first, changes nothing; the
        first player entry marks this checkpoint, activates it in the manager when
        there is one, and shows the activated sprite. */
    method OnTriggerEnter2D(tag: string, manager: CheckpointManager?)
      requires manager != null ==> manager.Valid()
      modifies this`activated, this`sprite, manager
      ensures manager != null ==> manager.Valid()
      ensures tag != "Player" || old(activated) ==>
        activated == old(activated) && sprite == old(sprite) &&
        (manager != null ==> manager.State() == old(manager.State()))
      ensures tag == "Player" && !old(activated) ==>
        activated &&
        sprite == SpriteAfter(hasRenderer, activatedCheckpointSprite, old(sprite), true) &&
        (manager != null ==> manager.State() == Activate(old(manager.State()), Some(gameObject)))
    {
      if tag != "Player" {
        return;
      }
      if activated {
        return;
      }
      activated := true;
      if manager != null {
        manager.ActivateCheckpoint(Some(gameObject));
      }
      SetSpriteActive(true);
    }

    method SetSpriteActive(isActive: bool)
      modifies this`sprite
      ensures sprite == SpriteAfter(hasRenderer, activatedCheckpointSprite, old(sprite), isActive)
    {
      if hasRenderer && activatedCheckpointSprite.Some? {
        sprite := if isActive then activatedCheckpointSprite else sprite;
      }
    }
  }
}
