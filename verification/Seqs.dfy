/** Options and the list operations that the server takes from the C++ standard library. */
module Seqs {

  datatype Option<+T> = None | Some(value: T)

  ghost predicate NoDup<T>(s: seq<T>) {
    forall i, j :: 0 <= i < j < |s| ==> s[i] != s[j]
  }

  lemma NoDupCons<T>(x: T, s: seq<T>)
    ensures NoDup([x] + s) <==> x !in s && NoDup(s)
  {
    var t := [x] + s;
    assert t[0] == x && t[1..] == s;
    if NoDup(t) {
      assert forall i :: 1 <= i < |t| ==> t[0] != t[i];
    }
  }

  /** `std::find(begin + from, end, x)`, when it finds something. */
  function FindFrom<T(==)>(s: seq<T>, x: T, from: nat): (at: nat)
    requires from < |s| && x in s[from..]
    ensures from <= at < |s| && s[at] == x
    ensures forall k :: from <= k < at ==> s[k] != x
    decreases |s| - from
  {
    if s[from] == x then from
    else
      assert s[from..] == [s[from]] + s[from + 1..];
      FindFrom(s, x, from + 1)
  }

  /** The first position of `x`. */
  function IndexOf<T(==)>(s: seq<T>, x: T): (at: nat)
    requires x in s
    ensures at < |s| && s[at] == x
    ensures forall k :: 0 <= k < at ==> s[k] != x
  {
    assert s[0..] == s;
    FindFrom(s, x, 0)
  }

  /** `erase(it)`. */
  function EraseAt<T>(s: seq<T>, i: nat): (r: seq<T>)
    requires i < |s|
    ensures forall y :: y in s && y != s[i] ==> y in r
    ensures forall y :: y in r ==> y in s
  {
    assert s == s[..i] + [s[i]] + s[i + 1..];
    s[..i] + s[i + 1..]
  }

  /** `insert(it, x)`. */
  function InsertAt<T>(s: seq<T>, i: nat, x: T): seq<T>
    requires i <= |s|
  {
    s[..i] + [x] + s[i..]
  }

  /** `erase(remove(x), end)`: every occurrence goes, the others keep their order. */
  function Without<T(==)>(s: seq<T>, x: T): (r: seq<T>)
    ensures forall y :: y in r ==> y in s && y != x
    ensures forall y :: y in s && y != x ==> y in r
    ensures NoDup(s) ==> NoDup(r)
    ensures x !in s ==> r == s
  {
    if s == [] then [] else
      var rest := Without(s[1..], x);
      assert s == [s[0]] + s[1..];
      NoDupCons(s[0], s[1..]);
      NoDupCons(s[0], rest);
      if s[0] == x then rest else [s[0]] + rest
  }

  lemma {:induction false} WithoutAppend<T>(a: seq<T>, b: seq<T>, x: T)
    ensures Without(a + b, x) == Without(a, x) + Without(b, x)
  {
    if a == [] {
      assert a + b == b;
    } else {
      assert (a + b)[0] == a[0] && (a + b)[1..] == a[1..] + b;
      WithoutAppend(a[1..], b, x);
    }
  }

  /** On a list without duplicates, erasing the found position removes exactly that element. */
  lemma EraseIsWithout<T>(s: seq<T>, x: T)
    requires NoDup(s) && x in s
    ensures EraseAt(s, IndexOf(s, x)) == Without(s, x)
  {
    var i := IndexOf(s, x);
    assert s == s[..i] + ([s[i]] + s[i + 1..]);
    WithoutAppend(s[..i], [s[i]] + s[i + 1..], x);
    WithoutAppend([s[i]], s[i + 1..], x);
    assert Without([s[i]], x) == [];
  }
}
