/** The local key inventory: a table of key ids to "held" flags shared by every
    key and key door. Collecting sets a known key; using consumes a held key. */
module KeyInventory {
  import opened Engine

  /** The keys the first item manager registers, none of them held. */
  const InitialKeys: map<string, bool> := map["KeyA" := false, "KeyB" := false, "KeyC" := false]

  /** Collecting key `keyID`: a known key becomes held; an unknown id changes nothing.
      The set of known keys never grows. */
  function Collect(keys: map<string, bool>, keyID: string): (r: map<string, bool>)
    ensures r.Keys == keys.Keys
    ensures keyID in keys ==> r[keyID]
    ensures forall k :: k in keys && k != keyID ==> r[k] == keys[k]
    ensures keyID !in keys ==> r == keys
  {
    if keyID in keys then keys[keyID := true] else keys
  }

  /** Whether key `keyID` is known and held. */
  predicate Holds(keys: map<string, bool>, keyID: string)
  {
    keyID in keys && keys[keyID]
  }

  /** Using key `keyID`: a held key is consumed; otherwise nothing changes. The set
      of known keys never grows. */
  function Use(keys: map<string, bool>, keyID: string): (r: map<string, bool>)
    ensures r.Keys == keys.Keys
    ensures Holds(keys, keyID) ==> !r[keyID]
    ensures forall k :: k in keys && k != keyID ==> r[k] == keys[k]
    ensures !Holds(keys, keyID) ==> r == keys
  {
    if Holds(keys, keyID) then keys[keyID := false] else keys
  }

  /** Collecting a known key and then using it leaves it not held and every other
      key as it was. */
  lemma CollectThenUse(keys: map<string, bool>, keyID: string)
    requires keyID in keys
    ensures Use(Collect(keys, keyID), keyID) == keys[keyID := false]
  {
  }

  /** One step a key or key door takes on the table. */
  datatype KeyAction = CollectAction(keyID: string) | UseAction(keyID: string)

  function Perform(keys: map<string, bool>, a: KeyAction): map<string, bool>
  {
    match a
    case CollectAction(id) => Collect(keys, id)
    case UseAction(id) => Use(keys, id)
  }

  /** The table after a run of actions, in order. */
  function Replay(keys: map<string, bool>, actions: seq<KeyAction>): map<string, bool>
    decreases |actions|
  {
    if |actions| == 0 then keys else Perform(Replay(keys, actions[..|actions| - 1]), actions[|actions| - 1])
  }

  /** Whatever keys are collected or used, the table knows exactly the keys it was
      initialised with. */
  lemma {:induction false} ReplayKeepsDomain(keys: map<string, bool>, actions: seq<KeyAction>)
    ensures Replay(keys, actions).Keys == keys.Keys
    decreases |actions|
  {
    if |actions| > 0 {
      ReplayKeepsDomain(keys, actions[..|actions| - 1]);
    }
  }

  /** A key is held after a run exactly when it is known and its last action was
      a collect (or, without any action on it, when it was held to begin with). */
  lemma {:induction false} ReplayHolds(keys: map<string, bool>, actions: seq<KeyAction>, keyID: string)
    ensures Holds(Replay(keys, actions), keyID) <==>
      keyID in keys && LastActionOn(actions, keyID) != Some(false) &&
      (LastActionOn(actions, keyID) == Some(true) || keys[keyID])
    decreases |actions|
  {
    ReplayKeepsDomain(keys, actions);
    if |actions| > 0 {
      ReplayHolds(keys, actions[..|actions| - 1], keyID);
      ReplayKeepsDomain(keys, actions[..|actions| - 1]);
    }
  }

  /** Whether the last action on `keyID` was a collect (true) or a use (false). */
  function LastActionOn(actions: seq<KeyAction>, keyID: string): Option<bool>
    decreases |actions|
  {
    if |actions| == 0 then None
    else if actions[|actions| - 1].keyID == keyID then Some(actions[|actions| - 1].CollectAction?)
    else LastActionOn(actions[..|actions| - 1], keyID)
  }

  /** The static state every item manager shares: the key table and the singleton
      instance (null until the first manager wakes up). */
  class KeyTable {
    var playerKeys: map<string, bool>
    var instance: ItemManager?

    constructor ()
      ensures playerKeys == map[] && instance == null
    {
      playerKeys, instance := map[], null;
    }
  }

  /** A key (with `keyID`) or a key door (with `requiredKeyID`) in the scene. */
  class ItemManager {
    const keyID: string
    const requiredKeyID: string
    const table: KeyTable
    /** Whether the object has destroyed itself. */
    var destroyed: bool

    constructor (keyID: string, requiredKeyID: string, table: KeyTable)
      ensures this.keyID == keyID && this.requiredKeyID == requiredKeyID && this.table == table
      ensures !destroyed
    {
      this.keyID, this.requiredKeyID, this.table := keyID, requiredKeyID, table;
      destroyed := false;
    }

    /** Whether no live singleton exists: the instance is unset or destroyed (a
        destroyed object compares equal to null). */
    predicate NoLiveInstance()
      reads table, table.instance
    {
      table.instance == null || table.instance.destroyed
    }

    /** Without a live singleton this manager becomes it and, if the table is
        empty, registers the three keys as not held; otherwise nothing changes. */
    method Awake()
      modifies table
      ensures old(NoLiveInstance()) ==> table.instance == this
      ensures old(NoLiveInstance()) && old(table.playerKeys) == map[] ==> table.playerKeys == InitialKeys
      ensures !old(NoLiveInstance()) || old(table.playerKeys) != map[] ==>
        table.playerKeys == old(table.playerKeys)
      ensures !old(NoLiveInstance()) ==> table.instance == old(table.instance)
    {
      if table.instance == null || table.instance.destroyed {
        table.instance := this;
        if |table.playerKeys| == 0 {
          table.playerKeys := InitialKeys;
        }
      }
    }

    /** Collects this key if the table knows it, and then the key object is
        destroyed; an unknown id changes nothing. */
    method CollectKey()
      modifies table`playerKeys, this`destroyed
      ensures table.playerKeys == Collect(old(table.playerKeys), keyID)
      ensures destroyed == (old(destroyed) || keyID in old(table.playerKeys))
    {
      if keyID in table.playerKeys {
        table.playerKeys := table.playerKeys[keyID := true];
        destroyed := true;
      }
    }

    /** Opens this door with its required key if that key is held: the key is
        consumed and the door destroyed; otherwise nothing changes. */
    method UseKey()
      modifies table`playerKeys, this`destroyed
      ensures table.playerKeys == Use(old(table.playerKeys), requiredKeyID)
      ensures destroyed == (old(destroyed) || Holds(old(table.playerKeys), requiredKeyID))
    {
      if requiredKeyID in table.playerKeys && table.playerKeys[requiredKeyID] {
        table.playerKeys := table.playerKeys[requiredKeyID := false];
        destroyed := true;
      }
    }
  }
}
