/** Stacking order: the list surgery of `raiseChild` and `lowerChild` on the pending children. */
module Restack {
  import opened Seqs

  /** The surface a restacking request names, as the parent sees it. */
  datatype Sibling<+T> = TheParent | NoSubsurface | Role(sub: T)

  /** `ok` is the boolean the C++ functions return, `changed` says the children flag is raised. */
  datatype Outcome<+T> = Outcome(ok: bool, changed: bool, list: seq<T>)

  function Raise<T(==)>(list: seq<T>, moved: T, sibling: Sibling<T>): Outcome<T> {
    if moved !in list then Outcome(false, false, list)
    else if |list| == 1 then Outcome(true, false, list)
    else
      var rest := EraseAt(list, IndexOf(list, moved));
      match sibling
      case TheParent => Outcome(true, true, rest + [moved])
      case NoSubsurface => Outcome(false, false, list)
      case Role(sub) =>
        if sub !in list || sub == moved then Outcome(false, false, list)
        else Outcome(true, true, InsertAt(rest, IndexOf(rest, sub) + 1, moved))
  }

  function Lower<T(==)>(list: seq<T>, moved: T, sibling: Sibling<T>): Outcome<T> {
    if moved !in list then Outcome(false, false, list)
    else if |list| == 1 then Outcome(true, false, list)
    else
      var rest := EraseAt(list, IndexOf(list, moved));
      match sibling
      case TheParent => Outcome(true, true, [moved] + rest)
      case NoSubsurface => Outcome(false, false, list)
      case Role(sub) =>
        if sub !in list || sub == moved then Outcome(false, false, list)
        else Outcome(true, true, InsertAt(rest, IndexOf(rest, sub), moved))
  }

  ghost predicate SameElements<T>(a: seq<T>, b: seq<T>) {
    (forall x :: x in a ==> x in b) && (forall x :: x in b ==> x in a)
  }

  lemma Inserted<T>(rest: seq<T>, k: nat, moved: T)
    requires NoDup(rest) && moved !in rest && k <= |rest|
    ensures NoDup(InsertAt(rest, k, moved))
    ensures SameElements(InsertAt(rest, k, moved), rest + [moved])
    ensures Without(InsertAt(rest, k, moved), moved) == rest
  {
    InsertedElements(rest, k, moved);
    assert rest == rest[..k] + rest[k..];
    hide NoDup, Without;
    WithoutAppend(rest[..k] + [moved], rest[k..], moved);
    WithoutAppend(rest[..k], [moved], moved);
    JustIt(moved);
  }

  lemma JustIt<T>(x: T)
    ensures Without([x], x) == []
  {
  }

  lemma InsertedElements<T>(rest: seq<T>, k: nat, moved: T)
    requires NoDup(rest) && moved !in rest && k <= |rest|
    ensures NoDup(InsertAt(rest, k, moved))
    ensures SameElements(InsertAt(rest, k, moved), rest + [moved])
  {
    var r := InsertAt(rest, k, moved);
    assert forall i :: 0 <= i < k ==> r[i] == rest[i];
    assert r[k] == moved;
    assert forall i :: k <= i < |rest| ==> r[i + 1] == rest[i];
    forall x | x in rest ensures x in r {
      var i :| 0 <= i < |rest| && rest[i] == x;
      assert if i < k then r[i] == x else r[i + 1] == x;
    }
  }

  /** The list once `moved` is taken out; both operations put it back somewhere. */
  lemma TakenOut<T>(list: seq<T>, moved: T)
    requires NoDup(list) && moved in list
    ensures
      var rest := EraseAt(list, IndexOf(list, moved));
      && rest == Without(list, moved) && NoDup(rest) && moved !in rest && |rest| + 1 == |list|
      && SameElements(list, rest + [moved])
  {
    EraseIsWithout(list, moved);
  }

  /** What every restacking keeps: the elements, and the order of all but the moved one. */
  ghost predicate Restacks<T>(before: seq<T>, after: seq<T>, moved: T) {
    NoDup(after) && SameElements(after, before) && Without(after, moved) == Without(before, moved)
  }

  lemma PutBack<T>(list: seq<T>, moved: T, k: nat)
    requires NoDup(list) && moved in list && k < |list|
    ensures Restacks(list, InsertAt(EraseAt(list, IndexOf(list, moved)), k, moved), moved)
  {
    TakenOut(list, moved);
    Inserted(EraseAt(list, IndexOf(list, moved)), k, moved);
  }

  lemma RaiseRestacks<T>(list: seq<T>, moved: T, sibling: Sibling<T>)
    requires NoDup(list)
    ensures Restacks(list, Raise(list, moved, sibling).list, moved)
  {
    hide IndexOf, EraseAt, Without, NoDup;
    if Raise(list, moved, sibling).changed {
      TakenOut(list, moved);
      var rest := EraseAt(list, IndexOf(list, moved));
      match sibling {
        case TheParent =>
          PutBack(list, moved, |rest|);
          assert rest + [moved] == InsertAt(rest, |rest|, moved);
        case Role(sub) =>
          PutBack(list, moved, IndexOf(rest, sub) + 1);
      }
    }
  }

  lemma LowerRestacks<T>(list: seq<T>, moved: T, sibling: Sibling<T>)
    requires NoDup(list)
    ensures Restacks(list, Lower(list, moved, sibling).list, moved)
  {
    hide IndexOf, EraseAt, Without, NoDup;
    if Lower(list, moved, sibling).changed {
      TakenOut(list, moved);
      var rest := EraseAt(list, IndexOf(list, moved));
      match sibling {
        case TheParent =>
          PutBack(list, moved, 0);
          assert [moved] + rest == InsertAt(rest, 0, moved);
        case Role(sub) =>
          PutBack(list, moved, IndexOf(rest, sub));
      }
    }
  }

  /** `a` sits directly below `b`. */
  ghost predicate Adjacent<T>(list: seq<T>, a: T, b: T) {
    exists i :: 0 <= i < |list| - 1 && list[i] == a && list[i + 1] == b
  }

  /** When each operation succeeds, and where the moved child ends up. */
  lemma RaisePlaces<T>(list: seq<T>, moved: T, sibling: Sibling<T>)
    requires NoDup(list)
    ensures
      var r := Raise(list, moved, sibling);
      && (r.ok <==> moved in list && (|list| == 1 || sibling.TheParent?
                                      || (sibling.Role? && sibling.sub in list && sibling.sub != moved)))
      && (!r.ok ==> r.list == list && !r.changed)
      && (!r.changed ==> r.list == list)
      && (r.ok && sibling.TheParent? ==> r.list[|r.list| - 1] == moved)
      && (r.ok && |list| > 1 && sibling.Role? ==> Adjacent(r.list, sibling.sub, moved))
  {
    if Raise(list, moved, sibling).changed {
      TakenOut(list, moved);
      var rest := EraseAt(list, IndexOf(list, moved));
      if sibling.Role? {
        var i := IndexOf(rest, sibling.sub);
        var r := InsertAt(rest, i + 1, moved);
        assert r[i] == sibling.sub && r[i + 1] == moved;
      }
    }
  }

  lemma LowerPlaces<T>(list: seq<T>, moved: T, sibling: Sibling<T>)
    requires NoDup(list)
    ensures
      var r := Lower(list, moved, sibling);
      && (r.ok <==> moved in list && (|list| == 1 || sibling.TheParent?
                                      || (sibling.Role? && sibling.sub in list && sibling.sub != moved)))
      && (!r.ok ==> r.list == list && !r.changed)
      && (!r.changed ==> r.list == list)
      && (r.ok && sibling.TheParent? ==> r.list[0] == moved)
      && (r.ok && |list| > 1 && sibling.Role? ==> Adjacent(r.list, moved, sibling.sub))
  {
    if Lower(list, moved, sibling).changed {
      TakenOut(list, moved);
      var rest := EraseAt(list, IndexOf(list, moved));
      if sibling.Role? {
        var i := IndexOf(rest, sibling.sub);
        var r := InsertAt(rest, i, moved);
        assert r[i] == moved && r[i + 1] == sibling.sub;
      }
    }
  }
}
