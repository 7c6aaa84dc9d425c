/** Buffer parameters against the requests made of them: which planes count, what the buffer is made of,
    and what the client is told, by the requests alone. */
module DmabufHistory {
  import opened Seqs
  import opened DmabufParams

  /** The planes that were accepted, in order, whether a buffer was asked for, and whether the global lives. */
  datatype Record = Record(adds: seq<Op>, asked: bool, global: bool)

  const NO_RECORD := Record([], false, true)

  predicate Named(adds: seq<Op>, index: nat)
    requires forall a :: a in adds ==> a.Add?
  {
    exists k :: 0 <= k < |adds| && adds[k].index == index
  }

  predicate AllOf(adds: seq<Op>, modifier: nat)
    requires forall a :: a in adds ==> a.Add?
  {
    forall k :: 0 <= k < |adds| ==> adds[k].modifier == modifier
  }

  predicate Proper(h: Record) {
    forall a :: a in h.adds ==> a.Add? && a.fd >= 0
  }

  /** Why a plane is refused: a plane counts when no buffer was asked for, its index is one of four and
      new, and its modifier that of the planes before it. */
  function AddRefusal(h: Record, index: nat, modifier: nat): Option<Error>
    requires Proper(h)
  {
    if h.asked then Some(AlreadyUsed)
    else if index >= MAX_PLANES then Some(PlaneIndex)
    else if Named(h.adds, index) then Some(PlaneSet)
    else if !AllOf(h.adds, modifier) then Some(InvalidFormat)
    else None
  }

  function Follow(h: Record, op: Op): Record
    requires Proper(h)
  {
    match op
    case Add(_, index, _, _, modifier) =>
      if AddRefusal(h, index, modifier).None? then h.(adds := h.adds + [op]) else h
    case Create(_, _, _, _, _) => if h.global then h.(asked := true) else h
    case GlobalGone => h.(global := false)
    case Destroy => h
    case BufferGone => h
  }

  /** The plane that the accepted requests put at an index, or none. */
  function PlaneAt(adds: seq<Op>, index: nat): Plane
    requires forall a :: a in adds ==> a.Add?
  {
    if adds == [] then Plane(NO_FD, 0, 0)
    else
      var last := adds[|adds| - 1];
      if last.index == index then Plane(last.fd, last.offset, last.stride) else PlaneAt(adds[..|adds| - 1], index)
  }

  lemma {:induction false} NamedHasPlane(adds: seq<Op>, index: nat)
    requires forall a :: a in adds ==> a.Add? && a.fd >= 0
    ensures PlaneAt(adds, index).fd != NO_FD <==> Named(adds, index)
  {
    if adds != [] {
      var init := adds[..|adds| - 1];
      NamedHasPlane(init, index);
      if k :| 0 <= k < |adds| && adds[k].index == index && adds[|adds| - 1].index != index {
        assert init[k].index == index;
      }
    }
  }

  lemma PlaneAfter(adds: seq<Op>, op: Op, index: nat)
    requires (forall a :: a in adds ==> a.Add?) && op.Add?
    ensures PlaneAt(adds + [op], index)
         == if op.index == index then Plane(op.fd, op.offset, op.stride) else PlaneAt(adds, index)
  {
    assert (adds + [op])[..|adds|] == adds;
  }

  // ---------------------------------------------------------------- the object keeps to the record

  ghost predicate ParamsMatch(p: Params, h: Record)
    requires Proper(h)
  {
    && |p.planes| == MAX_PLANES
    && p.createRequested == h.asked && p.globalAlive == h.global && p.count == |h.adds|
    && p.modifierSent == (h.adds != [])
    && AllOf(h.adds, p.modifier)
    && (!h.asked ==> forall i :: 0 <= i < MAX_PLANES ==> p.planes[i] == PlaneAt(h.adds, i))
  }

  ghost predicate Matches(s: State, h: Record) {
    && Proper(h)
    && (s.params.Some? ==> ParamsMatch(s.params.value, h))
    && (s.buffer.Some? ==>
          && h.asked && |s.buffer.value| == |h.adds|
          && forall i :: 0 <= i < |s.buffer.value| ==> s.buffer.value[i] == PlaneAt(h.adds, i))
  }

  lemma RefusalIsError(p: Params, h: Record, index: nat, modifier: nat)
    requires Proper(h) && ParamsMatch(p, h)
    ensures AddError(p, index, modifier) == AddRefusal(h, index, modifier)
  {
    if index < MAX_PLANES { NamedHasPlane(h.adds, index); }
    if h.adds != [] { assert h.adds[0].modifier == p.modifier; }
  }

  lemma AddFollows(s: State, h: Record, op: Op)
    requires Sound(s) && Matches(s, h) && op.Add? && Enabled(s, op)
    ensures Proper(Follow(h, op)) && Matches(Step(s, op), Follow(h, op))
  {
    var p := s.params.value;
    RefusalIsError(p, h, op.index, op.modifier);
    if AddRefusal(h, op.index, op.modifier).None? {
      forall i: nat | i < MAX_PLANES ensures PlaneAt(h.adds + [op], i)
        == if op.index == i then Plane(op.fd, op.offset, op.stride) else PlaneAt(h.adds, i)
      {
        PlaneAfter(h.adds, op, i);
      }
    }
  }

  lemma CreateFollows(s: State, h: Record, op: Op)
    requires Sound(s) && Matches(s, h) && op.Create? && Enabled(s, op)
    ensures Proper(Follow(h, op)) && Matches(Step(s, op), Follow(h, op))
  {
    hide SomeBad, Descriptors, HasHole;
  }

  lemma StepFollows(s: State, h: Record, op: Op)
    requires Sound(s) && Matches(s, h) && Enabled(s, op)
    ensures Proper(Follow(h, op)) && Matches(Step(s, op), Follow(h, op))
  {
    if op.Add? { AddFollows(s, h, op); }
    else if op.Create? { CreateFollows(s, h, op); }
    else { hide PlaneAt, Descriptors; }
  }

  function FollowAll(h: Record, ops: seq<Op>): (r: Record)
    requires Proper(h) && forall op :: op in ops && op.Add? ==> op.fd >= 0
    ensures Proper(r)
    decreases |ops|
  {
    if ops == [] then h
    else
      assert ops[0] in ops;
      assert forall op :: op in ops[1..] ==> op in ops;
      FollowAll(Follow(h, ops[0]), ops[1..])
  }

  lemma {:induction false} RunGivesDescriptors(s: State, ops: seq<Op>)
    requires Sound(s) && Run(s, ops).Some?
    ensures forall op :: op in ops && op.Add? ==> op.fd >= 0
    decreases |ops|
  {
    if ops != [] {
      StepKeeps(s, ops[0]);
      assert ops[0].Add? ==> ops[0].fd >= 0;
      hide Step, Sound, Enabled;
      RunGivesDescriptors(Step(s, ops[0]), ops[1..]);
      assert ops == [ops[0]] + ops[1..];
    }
  }

  lemma {:induction false} RunFollows(s: State, ops: seq<Op>, r: State, h: Record)
    requires Sound(s) && Matches(s, h) && Run(s, ops) == Some(r)
    requires forall op :: op in ops && op.Add? ==> op.fd >= 0
    ensures Matches(r, FollowAll(h, ops))
    decreases |ops|
  {
    assert Proper(h);
    hide Step, ParamsMatch, PlaneAt, Follow, Sound, Enabled;
    if ops != [] {
      StepKeeps(s, ops[0]);
      StepFollows(s, h, ops[0]);
      assert forall op :: op in ops[1..] ==> op in ops;
      RunFollows(Step(s, ops[0]), ops[1..], r, Follow(h, ops[0]));
    }
  }

  /** After any run from the start, by the requests alone: as long as no buffer was asked for, every slot
      holds the plane that the accepted request for its index named, and the others are empty; a buffer is
      made of exactly these planes, in the order of their indices; and the modifier is that of them all. */
  lemma SlotsAreWhatWasAdded(ops: seq<Op>, r: State)
    requires Run(Start(), ops) == Some(r)
    ensures forall op :: op in ops && op.Add? ==> op.fd >= 0
    ensures
      var h := FollowAll(NO_RECORD, ops);
      && (r.params.Some? ==>
            var p := r.params.value;
            && |p.planes| == MAX_PLANES && p.count == |h.adds| && p.createRequested == h.asked
            && (forall a :: a in h.adds ==> a.modifier == p.modifier)
            && (!h.asked ==> forall i :: 0 <= i < MAX_PLANES ==> p.planes[i] == PlaneAt(h.adds, i)))
      && (r.buffer.Some? ==>
            && |r.buffer.value| == |h.adds|
            && forall i :: 0 <= i < |h.adds| ==> r.buffer.value[i] == PlaneAt(h.adds, i))
  {
    RunGivesDescriptors(Start(), ops);
    RunFollows(Start(), ops, r, NO_RECORD);
    hide Run, PlaneAt;
  }

  // ---------------------------------------------------------------- what the client is told

  predicate Gap(adds: seq<Op>, n: nat)
    requires forall a :: a in adds ==> a.Add?
  {
    exists i :: 0 <= i < n && !Named(adds, i)
  }

  /** Why no buffer is made, in this order: asked before, no plane or a gap among them, no size, or a plane
      that leaves its file. */
  function CreateRefusal(h: Record, width: int, height: int, sizes: seq<int>): Option<Error>
    requires Proper(h) && |sizes| == MAX_PLANES
  {
    if h.asked then Some(AlreadyUsed)
    else if h.adds == [] || Gap(h.adds, |h.adds|) then Some(Incomplete)
    else if ToU32(width) == 0 || ToU32(height) == 0 then Some(InvalidDimensions)
    else if exists i :: 0 <= i < |h.adds| && i < MAX_PLANES
                        && PlaneIsBad(PlaneAt(h.adds, i), i == 0, ToU32(height), sizes[i])
    then Some(OutOfBounds)
    else None
  }

  /** What the request is answered with. */
  function Replies(h: Record, op: Op): seq<Reply>
    requires Proper(h) && (op.Create? ==> |op.sizes| == MAX_PLANES)
  {
    match op
    case Add(_, index, _, _, modifier) =>
      var e := AddRefusal(h, index, modifier);
      if e.Some? then [Posted(e.value)] else []
    case Create(immediate, width, height, sizes, accepted) =>
      if !h.global then []
      else
        var e := CreateRefusal(h, width, height, sizes);
        if e.Some? then [Posted(e.value)]
        else if !accepted then [if immediate then Posted(InvalidBuffer) else Failed]
        else if immediate then [] else [Created]
    case _ => []
  }

  lemma CreateRefusalIsError(p: Params, h: Record, width: int, height: int, sizes: seq<int>)
    requires ParamsOk(p) && Proper(h) && ParamsMatch(p, h) && |sizes| == MAX_PLANES
    ensures CreateError(p, width, height, sizes) == CreateRefusal(h, width, height, sizes)
  {
    if !h.asked {
      forall i: nat | i < MAX_PLANES ensures p.planes[i].fd != NO_FD <==> Named(h.adds, i) {
        NamedHasPlane(h.adds, i);
      }
      hide PlaneAt, Descriptors, PlaneIsBad;
      assert HasHole(p.planes, p.count) <==> Gap(h.adds, |h.adds|);
      SomeBadIff(p.planes, ToU32(height), sizes, p.count);
    }
  }

  /** Every request is answered exactly so. */
  lemma StepReplies(s: State, h: Record, op: Op)
    requires Sound(s) && Matches(s, h) && Enabled(s, op)
    ensures Step(s, op).sent == s.sent + Replies(h, op)
  {
    if op.Add? {
      RefusalIsError(s.params.value, h, op.index, op.modifier);
    } else if op.Create? {
      CreateRefusalIsError(s.params.value, h, op.width, op.height, op.sizes);
    }
    hide Descriptors, CreateError, CreateRefusal, AddError, AddRefusal, PlaneAt;
  }
}
