/** The lamp registry: a list of lamp references (which may hold nulls once a lamp
    is destroyed), duplicate-free registration, removal of the first occurrence,
    colour application that skips nulls, and getters that prune nulls in place. */
module Lamps {
  import opened Engine

  type LampId = ObjectId

  /** `s` without its first occurrence of `x` (a list's `Remove`: find the first
      index, then remove at it); unchanged when `x` is absent. */
  function RemoveFirst(s: seq<Option<LampId>>, x: Option<LampId>): (r: seq<Option<LampId>>)
    ensures multiset(r) == multiset(s) - multiset{x}
    ensures x !in s ==> r == s
    ensures x in s ==> exists k :: 0 <= k < |s| && s[k] == x && x !in s[..k] && r == s[..k] + s[k + 1..]
    ensures |r| == if x in s then |s| - 1 else |s|
  {
    var k := IndexOf(s, x);
    if k == -1 then s
    else
      assert s == s[..k] + [s[k]] + s[k + 1..];
      assert x !in s[..k];
      s[..k] + s[k + 1..]
  }

  /** Cutting one position out of a duplicate-free list leaves a duplicate-free
      list without that element. */
  lemma SpliceNoDuplicates<T>(s: seq<T>, k: nat)
    requires NoDuplicates(s) && k < |s|
    ensures NoDuplicates(s[..k] + s[k + 1..]) && s[k] !in s[..k] + s[k + 1..]
  {
    var t := s[..k] + s[k + 1..];
    forall i | 0 <= i < |t| ensures t[i] == s[if i < k then i else i + 1] {
      if i < k {
        assert t[i] == s[..k][i];
      } else {
        assert t[i] == s[k + 1..][i - k];
      }
    }
    forall i, j | 0 <= i < j < |t| ensures t[i] != t[j] {
      assert t[i] == s[if i < k then i else i + 1];
      assert t[j] == s[if j < k then j else j + 1];
    }
    forall i | 0 <= i < |t| ensures t[i] != s[k] {
      assert t[i] == s[if i < k then i else i + 1];
    }
  }

  /** In a duplicate-free list the removed lamp is gone afterwards, and no
      duplicate appears. */
  lemma RemoveFirstNoDuplicates(s: seq<Option<LampId>>, x: Option<LampId>)
    requires NoDuplicates(s)
    ensures NoDuplicates(RemoveFirst(s, x)) && x !in RemoveFirst(s, x)
  {
    var k := IndexOf(s, x);
    if k != -1 {
      SpliceNoDuplicates(s, k);
    }
  }

  /** The list after registering every found lamp in turn. */
  function RegisterAll(list: seq<Option<LampId>>, found: seq<LampId>): (r: seq<Option<LampId>>)
    decreases |found|
  {
    if |found| == 0 then list
    else AddIfAbsent(RegisterAll(list, found[..|found| - 1]), Some(found[|found| - 1]))
  }

  /** Registering a batch keeps the old entries as a prefix, adds every found lamp
      and never introduces a duplicate. */
  lemma {:induction false} RegisterAllContains(list: seq<Option<LampId>>, found: seq<LampId>)
    ensures list <= RegisterAll(list, found)
    ensures forall i :: 0 <= i < |found| ==> Some(found[i]) in RegisterAll(list, found)
    ensures NoDuplicates(list) ==> NoDuplicates(RegisterAll(list, found))
    decreases |found|
  {
    if |found| > 0 {
      var init := found[..|found| - 1];
      RegisterAllContains(list, init);
      var before := RegisterAll(list, init);
      forall i | 0 <= i < |found| ensures Some(found[i]) in RegisterAll(list, found) {
        if i < |init| {
          assert Some(init[i]) in before;
        }
      }
    }
  }

  /** The lamps a colour pass visits, in list order, each paired with the colour
      index it is given. */
  function Tagged(lamps: seq<LampId>, colorIndex: int): (r: seq<(LampId, int)>)
    ensures |r| == |lamps| && forall i :: 0 <= i < |lamps| ==> r[i] == (lamps[i], colorIndex)
  {
    seq(|lamps|, i requires 0 <= i < |lamps| => (lamps[i], colorIndex))
  }

  /** Tagging extends one lamp at a time. */
  lemma TaggedSnoc(lamps: seq<LampId>, lamp: LampId, colorIndex: int)
    ensures Tagged(lamps + [lamp], colorIndex) == Tagged(lamps, colorIndex) + [(lamp, colorIndex)]
  {
  }

  class LampManager {
    var allLamps: seq<Option<LampId>>

    constructor (allLamps: seq<Option<LampId>>)
      ensures this.allLamps == allLamps
    {
      this.allLamps := allLamps;
    }

    /** Adds the lamp unless the list already holds it; a null that is not yet in
        the list is added too, as the list's `Contains` check lets it through. */
    method RegisterLamp(lamp: Option<LampId>)
      modifies this
      ensures allLamps == AddIfAbsent(old(allLamps), lamp)
    {
      if lamp !in allLamps {
        allLamps := allLamps + [lamp];
      }
    }

    method UnregisterLamp(lamp: Option<LampId>)
      modifies this
      ensures allLamps == RemoveFirst(old(allLamps), lamp)
    {
      if lamp in allLamps {
        allLamps := RemoveFirst(allLamps, lamp);
      }
    }

    /** Registers every lamp the scene search found, in the order it found them. */
    method RegisterAllLampsInScene(foundLamps: seq<LampId>)
      modifies this
      ensures allLamps == RegisterAll(old(allLamps), foundLamps)
    {
      var i := 0;
      while i < |foundLamps|
        invariant 0 <= i <= |foundLamps|
        invariant allLamps == RegisterAll(old(allLamps), foundLamps[..i])
      {
        assert foundLamps[..i + 1][..i] == foundLamps[..i];
        RegisterLamp(Some(foundLamps[i]));
        i := i + 1;
      }
      assert foundLamps[..i] == foundLamps;
    }

    /** The lamps told to re-apply their colour: every non-null entry, in order. */
    method ApplyColorToAllLamps() returns (applied: seq<LampId>)
      ensures applied == Present(allLamps)
    {
      applied := [];
      var i := 0;
      while i < |allLamps|
        invariant 0 <= i <= |allLamps|
        invariant applied == Present(allLamps[..i])
      {
        assert allLamps[..i + 1] == allLamps[..i] + [allLamps[i]];
        PresentSnoc(allLamps[..i], allLamps[i]);
        if allLamps[i].Some? {
          applied := applied + [allLamps[i].value];
        }
        i := i + 1;
      }
      assert allLamps[..i] == allLamps;
    }

    /** The lamps given colour `colorIndex`: every non-null entry, in order. */
    method ApplyColorIndexToAllLamps(colorIndex: int) returns (applied: seq<(LampId, int)>)
      ensures applied == Tagged(Present(allLamps), colorIndex)
    {
      applied := [];
      var i := 0;
      while i < |allLamps|
        invariant 0 <= i <= |allLamps|
        invariant applied == Tagged(Present(allLamps[..i]), colorIndex)
      {
        assert allLamps[..i + 1] == allLamps[..i] + [allLamps[i]];
        PresentSnoc(allLamps[..i], allLamps[i]);
        if allLamps[i].Some? {
          TaggedSnoc(Present(allLamps[..i]), allLamps[i].value, colorIndex);
          applied := applied + [(allLamps[i].value, colorIndex)];
        }
        i := i + 1;
      }
      assert allLamps[..i] == allLamps;
    }

    /** Prunes the nulls from the list and returns what is left. */
    method GetAllLamps() returns (lamps: seq<LampId>)
      modifies this
      ensures lamps == Present(old(allLamps))
      ensures allLamps == Wrap(lamps)
    {
      lamps := Present(allLamps);
      allLamps := Wrap(lamps);
    }

    /** Prunes the nulls from the list and returns how many lamps are left. */
    method GetLampCount() returns (count: nat)
      modifies this
      ensures allLamps == Wrap(Present(old(allLamps)))
      ensures count == |Present(old(allLamps))| == |allLamps|
    {
      allLamps := Wrap(Present(allLamps));
      count := |allLamps|;
    }
  }

  /** Pruning leaves no null, and a second pruning changes nothing. */
  lemma PruneIdempotent(s: seq<Option<LampId>>)
    ensures forall i :: 0 <= i < |Wrap(Present(s))| ==> Wrap(Present(s))[i].Some?
    ensures Wrap(Present(Wrap(Present(s)))) == Wrap(Present(s))
  {
    PresentWrap(Present(s));
  }
}
