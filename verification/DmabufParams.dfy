/** Buffer parameters of the linux-dmabuf protocol: a client adds one file descriptor for each plane and
    asks for a buffer. Descriptors are linear: each must end up closed once, whoever owns it then. */
module DmabufParams {
  import opened Seqs

  // ---------------------------------------------------------------- values

  const U32: nat := 0x1_0000_0000
  const MAX_PLANES: nat := 4
  const NO_FD := -1
  const NO_MODIFIER: nat := 0x00ff_ffff_ffff_ffff

  function ToU32(x: int): nat {
    x % U32
  }

  datatype Plane = Plane(fd: int, offset: nat, stride: nat)

  datatype Error =
    | AlreadyUsed | PlaneIndex | PlaneSet | InvalidFormat
    | Incomplete | InvalidDimensions | OutOfBounds | InvalidBuffer

  datatype Reply = Posted(error: Error) | Failed | Created

  datatype Params = Params(
    planes: seq<Plane>,
    count: nat,
    createRequested: bool,
    modifier: nat,
    modifierSent: bool,
    globalAlive: bool)

  /** A parameter object, the buffer it was turned into, the descriptors closed so far, and what the
      client was told. */
  datatype State = State(params: Option<Params>, buffer: Option<seq<Plane>>, closed: seq<int>, sent: seq<Reply>)

  function NoPlanes(): seq<Plane> {
    seq(MAX_PLANES, _ => Plane(NO_FD, 0, 0))
  }

  function Blank(): Params {
    Params(NoPlanes(), 0, false, NO_MODIFIER, false, true)
  }

  ghost function Start(): (s: State)
    ensures Valid(s)
  {
    NothingHeld(NoPlanes());
    State(Some(Blank()), None, [], [])
  }

  /** The descriptors in a list of planes. */
  function Descriptors(planes: seq<Plane>): seq<int> {
    if planes == [] then []
    else
      var rest := Descriptors(planes[..|planes| - 1]);
      var fd := planes[|planes| - 1].fd;
      if fd == NO_FD then rest else rest + [fd]
  }

  function Emptied(planes: seq<Plane>): (r: seq<Plane>)
    ensures |r| == |planes|
  {
    seq(|planes|, i requires 0 <= i < |planes| => planes[i].(fd := NO_FD))
  }

  // ---------------------------------------------------------------- operations

  function AddError(p: Params, index: nat, modifier: nat): Option<Error>
    requires |p.planes| == MAX_PLANES
  {
    if p.createRequested then Some(AlreadyUsed)
    else if index >= MAX_PLANES then Some(PlaneIndex)
    else if p.planes[index].fd != NO_FD then Some(PlaneSet)
    else if p.modifierSent && p.modifier != modifier then Some(InvalidFormat)
    else None
  }

  function DoAdd(s: State, fd: int, index: nat, offset: nat, stride: nat, modifier: nat): State
    requires s.params.Some? && |s.params.value.planes| == MAX_PLANES
  {
    var p := s.params.value;
    var error := AddError(p, index, modifier);
    if error.Some? then s.(closed := s.closed + [fd], sent := s.sent + [Posted(error.value)])
    else s.(params := Some(p.(planes := p.planes[index := Plane(fd, offset, stride)], count := p.count + 1,
                              modifier := modifier, modifierSent := true)))
  }

  /** Is the plane out of bounds? The arithmetic is that of 32-bit unsigned integers, but for the first
      two sums. `size` is what `lseek` gives: the length of the file, or -1. */
  predicate PlaneIsBad(plane: Plane, first: bool, height: nat, size: int) {
    || plane.offset + plane.stride >= U32
    || (first && plane.offset + ToU32(plane.stride * height) >= U32)
    || (size != -1 && (|| plane.offset >= size
                       || ToU32(plane.offset + plane.stride) > size
                       || (first && ToU32(plane.offset + ToU32(plane.stride * height)) > size)))
  }

  predicate SomeBad(planes: seq<Plane>, height: nat, sizes: seq<int>, n: nat)
    requires n <= |planes| && n <= |sizes|
  {
    n > 0 && (SomeBad(planes, height, sizes, n - 1) || PlaneIsBad(planes[n - 1], n == 1, height, sizes[n - 1]))
  }

  ghost predicate HasHole(planes: seq<Plane>, n: nat)
    requires n <= |planes|
  {
    exists i :: 0 <= i < n && planes[i].fd == NO_FD
  }

  ghost function CreateError(p: Params, width: int, height: int, sizes: seq<int>): Option<Error>
    requires p.count <= |p.planes| && p.count <= |sizes|
  {
    if p.createRequested then Some(AlreadyUsed)
    else if p.count == 0 || HasHole(p.planes, p.count) then Some(Incomplete)
    else if ToU32(width) < 1 || ToU32(height) < 1 then Some(InvalidDimensions)
    else if SomeBad(p.planes, ToU32(height), sizes, p.count) then Some(OutOfBounds)
    else None
  }

  /** `immediate` says that the client named the buffer itself, `accepted` that the import succeeds. */
  ghost function DoCreate(s: State, immediate: bool, width: int, height: int, sizes: seq<int>, accepted: bool): State
    requires s.params.Some? && s.params.value.count <= |s.params.value.planes| && s.params.value.count <= |sizes|
  {
    var p := s.params.value;
    if !p.globalAlive then s
    else
      var error := CreateError(p, width, height, sizes);
      var asked := p.(createRequested := true);
      if error.Some? then s.(params := Some(asked), sent := s.sent + [Posted(error.value)])
      else if !accepted
      then s.(params := Some(asked), sent := s.sent + [if immediate then Posted(InvalidBuffer) else Failed])
      else s.(params := Some(asked.(planes := Emptied(p.planes))), buffer := Some(p.planes[..p.count]),
              sent := if immediate then s.sent else s.sent + [Created])
  }

  function DoGlobalGone(s: State): State
    requires s.params.Some?
  {
    s.(params := Some(s.params.value.(globalAlive := false)))
  }

  function DoDestroy(s: State): State
    requires s.params.Some?
  {
    s.(params := None, closed := s.closed + Descriptors(s.params.value.planes))
  }

  function DoBufferGone(s: State): State
    requires s.buffer.Some?
  {
    s.(buffer := None, closed := s.closed + Descriptors(s.buffer.value))
  }

  // ---------------------------------------------------------------- counting planes

  lemma {:induction false} DescriptorsAppend(a: seq<Plane>, b: seq<Plane>)
    ensures Descriptors(a + b) == Descriptors(a) + Descriptors(b)
  {
    if b == [] {
      assert a + b == a;
    } else {
      var n := |b| - 1;
      assert (a + b)[..|a + b| - 1] == a + b[..n];
      DescriptorsAppend(a, b[..n]);
    }
  }

  lemma {:induction false} NothingHeld(planes: seq<Plane>)
    requires forall i :: 0 <= i < |planes| ==> planes[i].fd == NO_FD
    ensures Descriptors(planes) == []
  {
    if planes != [] { NothingHeld(planes[..|planes| - 1]); }
  }

  lemma {:induction false} FullyHeld(planes: seq<Plane>)
    requires forall i :: 0 <= i < |planes| ==> planes[i].fd != NO_FD
    ensures |Descriptors(planes)| == |planes|
  {
    if planes != [] { FullyHeld(planes[..|planes| - 1]); }
  }

  lemma {:induction false} NothingLeft(planes: seq<Plane>)
    requires Descriptors(planes) == []
    ensures forall i :: 0 <= i < |planes| ==> planes[i].fd == NO_FD
  {
    if planes != [] { NothingLeft(planes[..|planes| - 1]); }
  }

  /** Filling an empty slot adds one descriptor. */
  lemma SlotFilled(planes: seq<Plane>, index: nat, plane: Plane)
    requires index < |planes| && planes[index].fd == NO_FD && plane.fd != NO_FD
    ensures multiset(Descriptors(planes[index := plane])) == multiset(Descriptors(planes)) + multiset{plane.fd}
    ensures |Descriptors(planes[index := plane])| == |Descriptors(planes)| + 1
  {
    var a, b := planes[..index], planes[index + 1..];
    assert planes == a + [planes[index]] + b && planes[index := plane] == a + [plane] + b;
    DescriptorsAppend(a + [planes[index]], b);
    DescriptorsAppend(a, [planes[index]]);
    DescriptorsAppend(a + [plane], b);
    DescriptorsAppend(a, [plane]);
    assert Descriptors([planes[index]]) == [] && Descriptors([plane]) == [plane.fd];
  }

  /** The counting argument: as many slots are taken as the counter says, and the first `count` of them
      are; so no other is, and they hold every descriptor there is. */
  lemma TakenSlotsAreThePrefix(planes: seq<Plane>, count: nat)
    requires count <= |planes| && |Descriptors(planes)| == count && !HasHole(planes, count)
    ensures forall i :: 0 <= i < |planes| ==> (planes[i].fd != NO_FD <==> i < count)
    ensures Descriptors(planes[..count]) == Descriptors(planes)
  {
    assert planes == planes[..count] + planes[count..];
    DescriptorsAppend(planes[..count], planes[count..]);
    FullyHeld(planes[..count]);
    NothingLeft(planes[count..]);
    forall i | count <= i < |planes| ensures planes[i].fd == NO_FD {
      assert planes[i] == planes[count..][i - count];
    }
  }

  // ---------------------------------------------------------------- what every run keeps

  ghost predicate ParamsOk(p: Params) {
    && |p.planes| == MAX_PLANES && p.count <= MAX_PLANES
    && if p.createRequested && Descriptors(p.planes) == [] then true else |Descriptors(p.planes)| == p.count
  }

  ghost predicate Valid(s: State) {
    s.params.Some? ==> ParamsOk(s.params.value)
  }

  /** Every descriptor of the state with the place it is in: a slot, the buffer, or closed. */
  ghost function Ledger(s: State): multiset<int> {
    (if s.params.Some? then multiset(Descriptors(s.params.value.planes)) else multiset{})
    + (if s.buffer.Some? then multiset(Descriptors(s.buffer.value)) else multiset{})
    + multiset(s.closed)
  }

  lemma {:induction false} DescriptorsBound(planes: seq<Plane>)
    ensures |Descriptors(planes)| <= |planes|
  {
    if planes != [] { DescriptorsBound(planes[..|planes| - 1]); }
  }

  lemma AddKeeps(s: State, fd: int, index: nat, offset: nat, stride: nat, modifier: nat)
    requires Valid(s) && s.params.Some? && fd >= 0
    ensures Valid(DoAdd(s, fd, index, offset, stride, modifier))
    ensures Ledger(DoAdd(s, fd, index, offset, stride, modifier)) == Ledger(s) + multiset{fd}
  {
    var p := s.params.value;
    if AddError(p, index, modifier).None? {
      SlotFilled(p.planes, index, Plane(fd, offset, stride));
      DescriptorsBound(p.planes[index := Plane(fd, offset, stride)]);
    }
  }

  /** A successful import moves every descriptor of the slots into the buffer: none is forgotten when
      the slots are reset. */
  lemma CreateKeeps(s: State, immediate: bool, width: int, height: int, sizes: seq<int>, accepted: bool)
    requires Valid(s) && s.params.Some? && |sizes| == MAX_PLANES
    requires s.params.value.createRequested || s.buffer.None?
    ensures Valid(DoCreate(s, immediate, width, height, sizes, accepted))
    ensures Ledger(DoCreate(s, immediate, width, height, sizes, accepted)) == Ledger(s)
  {
    var p := s.params.value;
    if p.globalAlive && CreateError(p, width, height, sizes).None? && accepted {
      assert |Descriptors(p.planes)| == p.count;
      TakenSlotsAreThePrefix(p.planes, p.count);
      NothingHeld(Emptied(p.planes));
    }
  }

  /** The request succeeds exactly when all of this holds; the taken slots are then 0..count-1. */
  lemma CreateSucceedsIff(p: Params, width: int, height: int, sizes: seq<int>)
    requires ParamsOk(p) && |sizes| == MAX_PLANES
    ensures CreateError(p, width, height, sizes).None? <==>
      && !p.createRequested && p.count > 0
      && (forall i :: 0 <= i < MAX_PLANES ==> (p.planes[i].fd != NO_FD <==> i < p.count))
      && ToU32(width) > 0 && ToU32(height) > 0
      && forall i :: 0 <= i < p.count ==> !PlaneIsBad(p.planes[i], i == 0, ToU32(height), sizes[i])
  {
    SomeBadIff(p.planes, ToU32(height), sizes, p.count);
    if !p.createRequested && !HasHole(p.planes, p.count) { TakenSlotsAreThePrefix(p.planes, p.count); }
  }

  lemma {:induction false} SomeBadIff(planes: seq<Plane>, height: nat, sizes: seq<int>, n: nat)
    requires n <= |planes| && n <= |sizes|
    ensures SomeBad(planes, height, sizes, n) <==>
      exists i :: 0 <= i < n && PlaneIsBad(planes[i], i == 0, height, sizes[i])
  {
    if n > 0 {
      SomeBadIff(planes, height, sizes, n - 1);
      if PlaneIsBad(planes[n - 1], n == 1, height, sizes[n - 1]) {
        assert PlaneIsBad(planes[n - 1], n - 1 == 0, height, sizes[n - 1]);
      }
    }
  }

  // ---------------------------------------------------------------- runs

  datatype Op =
    | Add(fd: int, index: nat, offset: nat, stride: nat, modifier: nat)
    | Create(immediate: bool, width: int, height: int, sizes: seq<int>, accepted: bool)
    | GlobalGone
    | Destroy
    | BufferGone

  ghost predicate Enabled(s: State, op: Op) {
    match op
    case Add(fd, _, _, _, _) => s.params.Some? && fd >= 0
    case Create(_, _, _, sizes, _) => s.params.Some? && |sizes| == MAX_PLANES
    case GlobalGone => s.params.Some?
    case Destroy => s.params.Some?
    case BufferGone => s.buffer.Some?
  }

  ghost function Step(s: State, op: Op): State
    requires Valid(s) && Enabled(s, op)
  {
    match op
    case Add(fd, index, offset, stride, modifier) => DoAdd(s, fd, index, offset, stride, modifier)
    case Create(immediate, width, height, sizes, accepted) => DoCreate(s, immediate, width, height, sizes, accepted)
    case GlobalGone => DoGlobalGone(s)
    case Destroy => DoDestroy(s)
    case BufferGone => DoBufferGone(s)
  }

  /** There is a buffer only once it was asked for. */
  ghost predicate Sound(s: State) {
    Valid(s) && (s.params.Some? && s.buffer.Some? ==> s.params.value.createRequested)
  }

  function GivenBy(op: Op): multiset<int> {
    if op.Add? then multiset{op.fd} else multiset{}
  }

  lemma StepKeeps(s: State, op: Op)
    requires Sound(s) && Enabled(s, op)
    ensures Sound(Step(s, op))
    ensures Ledger(Step(s, op)) == Ledger(s) + GivenBy(op)
  {
    StepLedger(s, op);
    hide Ledger, Descriptors, CreateError, ParamsOk;
  }

  lemma StepLedger(s: State, op: Op)
    requires Sound(s) && Enabled(s, op)
    ensures Valid(Step(s, op)) && Ledger(Step(s, op)) == Ledger(s) + GivenBy(op)
  {
    hide Descriptors, DoAdd, DoCreate;
    match op {
      case Add(fd, index, offset, stride, modifier) => AddKeeps(s, fd, index, offset, stride, modifier);
      case Create(immediate, width, height, sizes, accepted) =>
        CreateKeeps(s, immediate, width, height, sizes, accepted);
      case GlobalGone =>
      case Destroy => AppendedMultiset(s.closed, Descriptors(s.params.value.planes));
      case BufferGone => AppendedMultiset(s.closed, Descriptors(s.buffer.value));
    }
  }

  lemma AppendedMultiset(a: seq<int>, b: seq<int>)
    ensures multiset(a + b) == multiset(a) + multiset(b)
  {
  }

  ghost function Run(s: State, ops: seq<Op>): (r: Option<State>)
    requires Sound(s)
    ensures r.Some? ==> Sound(r.value)
    decreases |ops|
  {
    if ops == [] then Some(s)
    else if !Enabled(s, ops[0]) then None
    else
      StepKeeps(s, ops[0]);
      Run(Step(s, ops[0]), ops[1..])
  }

  /** The descriptors that a run passes to `add`. */
  function Given(ops: seq<Op>): multiset<int>
    decreases |ops|
  {
    if ops == [] then multiset{} else GivenBy(ops[0]) + Given(ops[1..])
  }

  lemma {:induction false} RunKeepsLedger(s: State, ops: seq<Op>, r: State)
    requires Sound(s) && Run(s, ops) == Some(r)
    ensures Ledger(r) == Ledger(s) + Given(ops)
    decreases |ops|
  {
    if ops != [] {
      StepKeeps(s, ops[0]);
      RunKeepsLedger(Step(s, ops[0]), ops[1..], r);
    }
  }

  /** After any run every descriptor ever given is in a slot, in the buffer or closed, and in one of them
      only as often as it was given; once the objects are gone each was closed just as often. */
  lemma DescriptorsAreConserved(ops: seq<Op>, r: State)
    requires Run(Start(), ops) == Some(r)
    ensures Ledger(r) == Given(ops)
    ensures r.params.None? && r.buffer.None? ==> multiset(r.closed) == Given(ops)
  {
    NothingHeld(NoPlanes());
    RunKeepsLedger(Start(), ops, r);
  }

  /** The counter never points behind the slots. */
  lemma CounterIsOccupancy(ops: seq<Op>, r: State)
    requires Run(Start(), ops) == Some(r) && r.params.Some?
    ensures |r.params.value.planes| == MAX_PLANES && r.params.value.count <= MAX_PLANES
    ensures !r.params.value.createRequested ==> |Descriptors(r.params.value.planes)| == r.params.value.count
  {
  }

  // ---------------------------------------------------------------- the size check

  /** What the check on the first plane is for: its rows lie within the file. */
  predicate Fits(plane: Plane, height: nat, size: int) {
    plane.offset + plane.stride * height <= size
  }

  /** A passed check on the first plane says that the plane fits, whatever the file size, if and only if
      the product of stride and height does not leave 32 bits. */
  lemma SizeCheckIsSoundIff(plane: Plane, height: nat)
    requires plane.offset + plane.stride < U32 && plane.offset + ToU32(plane.stride * height) < U32
    ensures
      (forall size: int :: size >= 0 && !PlaneIsBad(plane, true, height, size) ==> Fits(plane, height, size))
      <==> plane.stride * height < U32
  {
    var area := plane.stride * height;
    if area < U32 {
      assert ToU32(area) == area;
    } else {
      assert plane.stride > 0;
      var most := if plane.stride > ToU32(area) then plane.stride else ToU32(area);
      var size: int := plane.offset + most;
      assert ToU32(plane.offset + plane.stride) == plane.offset + plane.stride;
      assert ToU32(plane.offset + ToU32(area)) == plane.offset + ToU32(area);
      assert !PlaneIsBad(plane, true, height, size) && !Fits(plane, height, size);
    }
  }

  /** As long as the product does not leave 32 bits the check is exact: a plane passes if and only if its
      ends are 32-bit numbers and, unless the size of the file is unknown, its first row, and on the first
      plane all rows, lie within the file. */
  lemma SizeCheckIsExact(plane: Plane, first: bool, height: nat, size: int)
    requires plane.stride * height < U32
    ensures !PlaneIsBad(plane, first, height, size) <==>
      && plane.offset + plane.stride < U32 && (first ==> plane.offset + plane.stride * height < U32)
      && (|| size == -1
          || (&& plane.offset < size && plane.offset + plane.stride <= size
              && (first ==> Fits(plane, height, size))))
  {
    var area := plane.stride * height;
    assert ToU32(area) == area;
    if plane.offset + area < U32 { assert ToU32(plane.offset + area) == plane.offset + area; }
    if plane.offset + plane.stride < U32 {
      assert ToU32(plane.offset + plane.stride) == plane.offset + plane.stride;
    }
  }

  /** A plane of 2^16 bytes a row: with as many rows its size wraps to nothing. */
  function WidePlane(fd: int): Plane {
    Plane(fd, 0, 0x1_0000)
  }

  function WideRun(fd: int, modifier: nat, sizes: seq<int>): seq<Op> {
    [Add(fd, 0, 0, 0x1_0000, modifier)] + [Create(true, 1, 0x1_0000, sizes, true)]
  }

  /** A run from the start that gets a buffer for 65536 rows out of a file that holds one. */
  lemma WidePlaneRun(fd: int, modifier: nat, sizes: seq<int>)
    requires fd >= 0 && |sizes| == MAX_PLANES && sizes[0] == 0x1_0000
    ensures
      var r := Run(Start(), WideRun(fd, modifier, sizes));
      && r.Some? && r.value.buffer == Some([WidePlane(fd)]) && r.value.sent == []
      && !Fits(WidePlane(fd), 0x1_0000, sizes[0])
  {
    var add, create := Add(fd, 0, 0, 0x1_0000, modifier), Create(true, 1, 0x1_0000, sizes, true);
    StepKeeps(Start(), add);
    var s := Step(Start(), add);
    RunOfTwo(Start(), add, create);
    hide Run, Sound;
    WidePlanePasses(s, fd, sizes);
  }

  lemma RunOfTwo(s: State, a: Op, b: Op)
    requires Sound(s) && Enabled(s, a) && Sound(Step(s, a)) && Enabled(Step(s, a), b)
    ensures Run(s, [a] + [b]) == Some(Step(Step(s, a), b))
  {
    hide Step, Valid, Enabled;
    var ops := [a] + [b];
    assert ops[0] == a && ops[1..] == [b] && [b][0] == b && [b][1..] == [];
    StepKeeps(Step(s, a), b);
    assert Run(Step(s, a), [b]) == Run(Step(Step(s, a), b), []);
  }

  lemma WidePlanePasses(s: State, fd: int, sizes: seq<int>)
    requires Valid(s) && s.params.Some? && |sizes| == MAX_PLANES && sizes[0] == 0x1_0000
    requires s.params.value.planes[0] == WidePlane(fd) && s.params.value.count == 1 && fd >= 0
    requires !s.params.value.createRequested && s.params.value.globalAlive
    ensures CreateError(s.params.value, 1, 0x1_0000, sizes).None?
    ensures DoCreate(s, true, 1, 0x1_0000, sizes, true).buffer == Some([WidePlane(fd)])
  {
    var planes := s.params.value.planes;
    assert !PlaneIsBad(WidePlane(fd), true, 0x1_0000, sizes[0]);
    assert !SomeBad(planes, 0x1_0000, sizes, 0);
    assert planes[..1] == [WidePlane(fd)];
  }

  // ---------------------------------------------------------------- the program

  /** The process's own record of the descriptors it closed. */
  class Kernel {
    var closed: seq<int>

    constructor ()
      ensures closed == []
    {
      closed := [];
    }

    method Close(fd: int)
      modifies this
      ensures closed == old(closed) + [fd]
    {
      closed := closed + [fd];
    }

    /** Both destructors close the planes that still have a descriptor. */
    method CloseAll(planes: seq<Plane>)
      modifies this
      ensures closed == old(closed) + Descriptors(planes)
    {
      for i := 0 to |planes|
        invariant closed == old(closed) + Descriptors(planes[..i])
      {
        assert planes[..i + 1][..i] == planes[..i];
        if planes[i].fd != NO_FD { Close(planes[i].fd); }
      }
      assert planes[..|planes|] == planes;
    }
  }

  class Buffer {
    const planes: seq<Plane>

    constructor (planes: seq<Plane>)
      ensures this.planes == planes
    {
      this.planes := planes;
    }

    method Destroy(kernel: Kernel)
      modifies kernel
      ensures kernel.closed == old(kernel.closed) + Descriptors(planes)
    {
      kernel.CloseAll(planes);
    }
  }

  class BufferParams {
    const slots: array<Plane>
    var planeCount: nat
    var createRequested: bool
    var modifier: nat
    var modifierSent: bool
    var globalAlive: bool
    var sent: seq<Reply>

    ghost function Record(): Params
      reads this, slots
    {
      Params(slots[..], planeCount, createRequested, modifier, modifierSent, globalAlive)
    }

    /** The state that this object, the buffer made from it and the process hold together. */
    ghost function Snap(kernel: Kernel, buffer: Buffer?): State
      reads this, slots, kernel
    {
      State(Some(Record()), if buffer == null then None else Some(buffer.planes), kernel.closed, sent)
    }

    constructor ()
      ensures fresh(slots) && Record() == Blank() && sent == []
    {
      slots := new Plane[MAX_PLANES](_ => Plane(NO_FD, 0, 0));
      planeCount, createRequested, modifier, modifierSent, globalAlive := 0, false, NO_MODIFIER, false, true;
      sent := [];
      new;
      assert slots[..] == NoPlanes();
    }

    method PostError(error: Error)
      modifies this`sent
      ensures sent == old(sent) + [Posted(error)]
    {
      sent := sent + [Posted(error)];
    }

    method Add(fd: int, index: nat, offset: nat, stride: nat, modifier: nat, kernel: Kernel)
      requires ParamsOk(Record())
      modifies this, slots, kernel
      ensures Snap(kernel, null) == DoAdd(old(Snap(kernel, null)), fd, index, offset, stride, modifier)
    {
      if createRequested {
        PostError(AlreadyUsed);
        kernel.Close(fd);
        return;
      }
      if index >= slots.Length {
        PostError(PlaneIndex);
        kernel.Close(fd);
        return;
      }
      if slots[index].fd != NO_FD {
        PostError(PlaneSet);
        kernel.Close(fd);
        return;
      }
      if modifierSent && this.modifier != modifier {
        PostError(InvalidFormat);
        kernel.Close(fd);
        return;
      }
      this.modifier := modifier;
      modifierSent := true;
      slots[index] := Plane(fd, offset, stride);
      planeCount := planeCount + 1;
    }

    method ValidateParams(width: int, height: int, sizes: seq<int>) returns (ok: bool)
      requires ParamsOk(Record()) && |sizes| == MAX_PLANES
      modifies this`createRequested, this`sent
      ensures createRequested
      ensures
        var error := CreateError(old(Record()), width, height, sizes);
        ok == error.None? && sent == if ok then old(sent) else old(sent) + [Posted(error.value)]
    {
      var w, h := ToU32(width), ToU32(height);
      if createRequested {
        PostError(AlreadyUsed);
        return false;
      }
      createRequested := true;
      if planeCount == 0 {
        PostError(Incomplete);
        return false;
      }
      for i := 0 to planeCount
        invariant sent == old(sent) && !HasHole(slots[..], i)
      {
        if slots[i].fd != NO_FD { continue; }
        assert slots[..][i].fd == NO_FD;
        PostError(Incomplete);
        return false;
      }
      if w < 1 || h < 1 {
        PostError(InvalidDimensions);
        return false;
      }
      for i := 0 to planeCount
        invariant sent == old(sent) && !SomeBad(slots[..], h, sizes, i)
      {
        if PlaneIsBad(slots[i], i == 0, h, sizes[i]) {
          assert SomeBad(slots[..], h, sizes, i + 1);
          StaysBad(slots[..], h, sizes, i + 1, planeCount);
          PostError(OutOfBounds);
          return false;
        }
      }
      return true;
    }

    lemma {:induction false} StaysBad(planes: seq<Plane>, height: nat, sizes: seq<int>, m: nat, n: nat)
      requires m <= n <= |planes| && n <= |sizes| && SomeBad(planes, height, sizes, m)
      ensures SomeBad(planes, height, sizes, n)
    {
      if m < n { StaysBad(planes, height, sizes, m, n - 1); }
    }

    /** `accepted` is the consumer's import callback. */
    method Create(immediate: bool, width: int, height: int, sizes: seq<int>, accepted: bool, kernel: Kernel)
      returns (buffer: Buffer?)
      requires ParamsOk(Record()) && |sizes| == MAX_PLANES
      modifies this, slots
      ensures Snap(kernel, buffer) == DoCreate(old(Snap(kernel, null)), immediate, width, height, sizes, accepted)
    {
      buffer := null;
      if !globalAlive { return; }
      ghost var p := Record();
      var valid := ValidateParams(width, height, sizes);
      if !valid { return; }
      var planes := [];
      for i := 0 to planeCount
        invariant planes == slots[..i]
      {
        planes := planes + [slots[i]];
      }
      assert planes == p.planes[..p.count];
      if !accepted {
        if !immediate {
          sent := sent + [Failed];
          return;
        }
        PostError(InvalidBuffer);
        return;
      }
      ResetSlots();
      buffer := new Buffer(planes);
      if !immediate { sent := sent + [Created]; }
    }

    /** The buffer owns the descriptors now. */
    method ResetSlots()
      modifies slots
      ensures slots[..] == Emptied(old(slots[..]))
    {
      for i := 0 to slots.Length
        invariant forall j :: 0 <= j < i ==> slots[j] == old(slots[j]).(fd := NO_FD)
        invariant forall j :: i <= j < slots.Length ==> slots[j] == old(slots[j])
      {
        slots[i] := slots[i].(fd := NO_FD);
      }
    }

    method Destroy(kernel: Kernel)
      modifies kernel
      ensures kernel.closed == DoDestroy(old(Snap(kernel, null))).closed
    {
      kernel.CloseAll(slots[..]);
    }
  }
}
