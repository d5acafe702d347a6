/** Abstractions of the game engine shared by every puzzle script: nullable
    references, thrown null dereferences, duplicate-free lists and null filtering. */
module Engine {

  /** A Unity reference that may be null (an unassigned or destroyed object). */
  datatype Option<T> = None | Some(value: T)

  /** The opaque identity of a scene object (a GameObject, a component, a tilemap, a lamp). */
  type ObjectId = nat

  /** An RGBA colour with components in [0, 1]. */
  datatype Color = Color(r: real, g: real, b: real, a: real)

  const White := Color(1.0, 1.0, 1.0, 1.0)

  /** The outcome of code that dereferences a reference without checking it:
      either it returns a value or it throws a NullReferenceException. */
  datatype Fallible<T> = Returns(value: T) | NullReference

  /** No element occurs twice. */
  predicate NoDuplicates<T(==)>(s: seq<T>)
  {
    forall i, j :: 0 <= i < j < |s| ==> s[i] != s[j]
  }

  /** Appending an element that is not yet present keeps a list duplicate-free. */
  lemma AppendFresh<T>(s: seq<T>, x: T)
    requires NoDuplicates(s) && x !in s
    ensures NoDuplicates(s + [x])
  {
    var t := s + [x];
    forall i, j | 0 <= i < j < |t| ensures t[i] != t[j] {
      if j == |s| {
        assert t[i] == s[i];
      }
    }
  }

  /** The non-null entries of `s`, in their original order (what a `foreach` that
      skips null entries visits). */
  function Present<T>(s: seq<Option<T>>): (r: seq<T>)
    ensures |r| <= |s|
    ensures |r| == |s| - multiset(s)[None]
    ensures forall i :: 0 <= i < |r| ==> Some(r[i]) in s
    ensures forall i :: 0 <= i < |s| && s[i].Some? ==> s[i].value in r
  {
    if |s| == 0 then []
    else
      assert s == s[..|s| - 1] + [s[|s| - 1]];
      match s[|s| - 1]
      case None => Present(s[..|s| - 1])
      case Some(x) => Present(s[..|s| - 1]) + [x]
  }

  /** `Present` extends one entry at a time, which is how a loop builds it. */
  lemma PresentSnoc<T>(s: seq<Option<T>>, x: Option<T>)
    ensures Present(s + [x]) == if x.Some? then Present(s) + [x.value] else Present(s)
  {
    assert (s + [x])[..|s|] == s;
  }

  /** The position of the first occurrence of `x` in `s`, or -1 when there is none
      (the contract of a list's `IndexOf`). */
  function IndexOf<T(==)>(s: seq<T>, x: T): (k: int)
    ensures -1 <= k < |s|
    ensures k >= 0 ==> s[k] == x && forall j :: 0 <= j < k ==> s[j] != x
    ensures k == -1 <==> x !in s
  {
    if |s| == 0 then -1
    else if s[0] == x then 0
    else
      var k := IndexOf(s[1..], x);
      assert forall j :: 0 < j < |s| ==> s[j] == s[1..][j - 1];
      if k == -1 then -1 else k + 1
  }

  /** `x` added at the end unless it is already present (a list's `Contains` check
      followed by `Add`). */
  function AddIfAbsent<T(==)>(s: seq<T>, x: T): (r: seq<T>)
    ensures s <= r && x in r
    ensures x in s ==> r == s
    ensures x !in s ==> r == s + [x]
    ensures NoDuplicates(s) ==> NoDuplicates(r)
  {
    if x in s then s
    else
      assert NoDuplicates(s) ==> NoDuplicates(s + [x]) by {
        if NoDuplicates(s) {
          AppendFresh(s, x);
        }
      }
      s + [x]
  }

  /** Every element as a non-null reference. */
  function Wrap<T>(s: seq<T>): (r: seq<Option<T>>)
    ensures |r| == |s| && forall i :: 0 <= i < |s| ==> r[i] == Some(s[i])
  {
    seq(|s|, i requires 0 <= i < |s| => Some(s[i]))
  }

  /** Dropping the nulls of a list that has none gives back its elements. */
  lemma {:induction false} PresentWrap<T>(s: seq<T>)
    ensures Present(Wrap(s)) == s
    decreases |s|
  {
    if |s| > 0 {
      var init := s[..|s| - 1];
      PresentWrap(init);
      assert Wrap(s)[..|s| - 1] == Wrap(init);
      assert Present(Wrap(s)) == Present(Wrap(init)) + [s[|s| - 1]];
    }
  }

  /** Dropping nulls keeps a duplicate-free list duplicate-free. */
  lemma {:induction false} PresentNoDuplicates<T>(s: seq<Option<T>>)
    requires NoDuplicates(s)
    ensures NoDuplicates(Present(s))
    decreases |s|
  {
    if |s| > 0 {
      var init := s[..|s| - 1];
      var last := s[|s| - 1];
      assert s == init + [last];
      assert NoDuplicates(init);
      PresentNoDuplicates(init);
      PresentSnoc(init, last);
      if last.Some? {
        AppendFresh(Present(init), last.value);
      }
    }
  }

  /** The tail of a duplicate-free list is duplicate-free and lacks the head. */
  lemma NoDuplicatesTail<T>(s: seq<T>)
    requires NoDuplicates(s) && |s| > 0
    ensures NoDuplicates(s[1..]) && s[0] !in s[1..]
  {
    forall i, j | 0 <= i < j < |s[1..]| ensures s[1..][i] != s[1..][j] {
      assert s[1..][i] == s[i + 1] && s[1..][j] == s[j + 1];
    }
  }

  /** Putting an absent element in front keeps a list duplicate-free. */
  lemma NoDuplicatesCons<T>(x: T, s: seq<T>)
    requires NoDuplicates(s) && x !in s
    ensures NoDuplicates([x] + s)
  {
    var t := [x] + s;
    forall i, j | 0 <= i < j < |t| ensures t[i] != t[j] {
      assert t[j] == s[j - 1];
      if i > 0 {
        assert t[i] == s[i - 1];
      }
    }
  }
}
