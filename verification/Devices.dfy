/** The list helpers that every pool of a seat shares. */
module Devices {
  import opened Seqs

  /** A surface, and the client that made it. */
  datatype Surface = Surface(id: nat, client: nat)

  /** To count what happens. */
  function One(b: bool): nat {
    if b then 1 else 0
  }

  const SERIAL_LIMIT: nat := 0x1_0000_0000

  /** The display counts its serials in 32 bits. */
  function NextSerial(serial: nat): nat {
    (serial + 1) % SERIAL_LIMIT
  }

  /** The serial that the display gives out at the `clock`-th draw. */
  function Wire(clock: nat): nat {
    clock % SERIAL_LIMIT
  }

  lemma WireIsInjective(a: nat, b: nat)
    requires a < b && b - a < SERIAL_LIMIT
    ensures Wire(a) != Wire(b)
  {
  }

  /** `copy_if`: the elements that `keep` accepts, in order. */
  function Filter<T>(s: seq<T>, keep: T -> bool): (r: seq<T>)
    ensures forall x :: x in r ==> x in s && keep(x)
    ensures forall x :: x in s && keep(x) ==> x in r
    ensures NoDup(s) ==> NoDup(r)
  {
    if s == [] then [] else
      var rest := Filter(s[1..], keep);
      assert s == [s[0]] + s[1..];
      NoDupCons(s[0], s[1..]);
      NoDupCons(s[0], rest);
      if keep(s[0]) then [s[0]] + rest else rest
  }

  lemma {:induction false} FilterAppend<T>(a: seq<T>, b: seq<T>, keep: T -> bool)
    ensures Filter(a + b, keep) == Filter(a, keep) + Filter(b, keep)
  {
    if a == [] {
      assert a + b == b;
    } else {
      assert (a + b)[0] == a[0] && (a + b)[1..] == a[1..] + b;
      FilterAppend(a[1..], b, keep);
    }
  }

  lemma {:induction false} FilterWithout<T>(s: seq<T>, x: T, keep: T -> bool)
    ensures Filter(Without(s, x), keep) == Without(Filter(s, keep), x)
  {
    if s != [] {
      FilterWithout(s[1..], x, keep);
      var rest := Without(s[1..], x);
      if s[0] != x { assert ([s[0]] + rest)[1..] == rest; }
      var kept := Filter(s[1..], keep);
      if keep(s[0]) { assert ([s[0]] + kept)[1..] == kept; }
    }
  }

  /** `interfacesForSurface`: the devices of the client that made the surface. */
  function ForSurface<T>(surface: Option<Surface>, devices: seq<T>, ofClient: nat -> T -> bool): seq<T> {
    if surface.None? then [] else Filter(devices, ofClient(surface.value.client))
  }

  lemma AddedForSurface<T>(surface: Option<Surface>, devices: seq<T>, d: T, ofClient: nat -> T -> bool)
    ensures ForSurface(surface, devices + [d], ofClient)
         == ForSurface(surface, devices, ofClient)
          + if surface.Some? && ofClient(surface.value.client)(d) then [d] else []
  {
    if surface.Some? { FilterAppend(devices, [d], ofClient(surface.value.client)); }
  }

  /** `remove_one`: erases the first occurrence, if there is one. */
  function RemoveOne<T(==)>(s: seq<T>, x: T): seq<T> {
    if x in s then EraseAt(s, IndexOf(s, x)) else s
  }

  lemma RemoveOneIsWithout<T>(s: seq<T>, x: T)
    requires NoDup(s)
    ensures RemoveOne(s, x) == Without(s, x)
  {
    if x in s { EraseIsWithout(s, x); }
  }

  lemma RemovedForSurface<T>(surface: Option<Surface>, devices: seq<T>, d: T, ofClient: nat -> T -> bool)
    ensures ForSurface(surface, Without(devices, d), ofClient) == Without(ForSurface(surface, devices, ofClient), d)
    ensures NoDup(devices) ==>
      ForSurface(surface, RemoveOne(devices, d), ofClient) == RemoveOne(ForSurface(surface, devices, ofClient), d)
  {
    if surface.Some? { FilterWithout(devices, d, ofClient(surface.value.client)); }
    if NoDup(devices) {
      RemoveOneIsWithout(devices, d);
      RemoveOneIsWithout(ForSurface(surface, devices, ofClient), d);
    }
  }

  lemma RemoveOneLeaves<T>(s: seq<T>, x: T)
    requires NoDup(s)
    ensures forall y :: y in RemoveOne(s, x) <==> y in s && y != x
    ensures NoDup(RemoveOne(s, x))
  {
    RemoveOneIsWithout(s, x);
  }

  /** `a` can be had from `b` by leaving elements out. */
  ghost predicate Subsequence<T>(a: seq<T>, b: seq<T>) {
    a == [] || (b != [] && if a[0] == b[0] then Subsequence(a[1..], b[1..]) else Subsequence(a, b[1..]))
  }

  lemma {:induction false} SubsequenceTail<T>(a: seq<T>, b: seq<T>)
    requires a != [] && Subsequence(a, b)
    ensures Subsequence(a[1..], b)
    decreases |b|
  {
    if a[0] == b[0] {
      SubsequenceWider(a[1..], b);
    } else {
      SubsequenceTail(a, b[1..]);
      SubsequenceWider(a[1..], b);
    }
  }

  lemma {:induction false} SubsequenceWider<T>(a: seq<T>, b: seq<T>)
    requires b != [] && Subsequence(a, b[1..])
    ensures Subsequence(a, b)
    decreases |b|, 0
  {
    if a != [] && a[0] == b[0] { SubsequenceTail(a, b[1..]); }
  }

  lemma {:induction false} SubsequenceAppend<T>(a: seq<T>, b: seq<T>, x: T)
    requires Subsequence(a, b)
    ensures Subsequence(a, b + [x]) && Subsequence(a + [x], b + [x])
    decreases |b|
  {
    if b == [] {
      assert a + [x] == [x] == b + [x];
    } else {
      assert (b + [x])[0] == b[0] && (b + [x])[1..] == b[1..] + [x];
      if a == [] {
        SubsequenceAppend(a, b[1..], x);
        assert a + [x] == [x];
        SubsequenceWider([x], b + [x]);
      } else if a[0] == b[0] {
        SubsequenceAppend(a[1..], b[1..], x);
        assert (a + [x])[1..] == a[1..] + [x];
      } else {
        SubsequenceAppend(a, b[1..], x);
      }
    }
  }

  lemma {:induction false} FilterIsSubsequence<T>(s: seq<T>, keep: T -> bool)
    ensures Subsequence(Filter(s, keep), s)
  {
    if s != [] {
      FilterIsSubsequence(s[1..], keep);
      var rest := Filter(s[1..], keep);
      if keep(s[0]) { assert ([s[0]] + rest)[1..] == rest; }
      else { SubsequenceWider(rest, s); }
    }
  }

  lemma {:induction false} SubsequenceWithout<T>(a: seq<T>, b: seq<T>, x: T)
    requires Subsequence(a, b)
    ensures Subsequence(Without(a, x), Without(b, x))
    decreases |b|
  {
    if a != [] {
      var rest := Without(b[1..], x);
      assert b[0] != x ==> ([b[0]] + rest)[1..] == rest;
      if a[0] == b[0] {
        SubsequenceWithout(a[1..], b[1..], x);
        var w := Without(a[1..], x);
        assert a[0] != x ==> ([a[0]] + w)[1..] == w;
      } else {
        SubsequenceWithout(a, b[1..], x);
        if b[0] != x { SubsequenceWider(Without(a, x), [b[0]] + rest); }
      }
    }
  }
}
