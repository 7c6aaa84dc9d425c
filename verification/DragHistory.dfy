/** A drag against the operations made of it: where it is, how it moves, and which events each step sends
    to each data device and to the source. */
module DragHistory {
  import opened Seqs
  import opened Devices
  import opened DragTarget

  // ---------------------------------------------------------------- where the drag is

  /** The drag as the operations so far leave it: what is remembered of its sources, where and how it was
      begun, the surface it is over, and the motion that its devices follow. */
  datatype Course = Course(
    past: Memory,
    from: Option<Surface>,
    mode: Mode,
    serial: nat,
    over: Option<Surface>,
    motion: Mode)

  const NO_COURSE := Course(NO_MEMORY, None, NoDrag, 0, None, NoDrag)

  function Away(c: Course): Course {
    c.(over := None, motion := NoDrag)
  }

  function Follow(c: Course, op: Op): Course {
    var past := Remember(c.past, op);
    match op
    case Begin(_, origin, mode, serial) => Course(past, Some(origin), mode, serial, Some(origin), mode)
    case SetTarget(surface) =>
      if surface == c.over then c
      else c.(over := surface, motion := if surface.Some? then c.mode else NoDrag)
    case DropDrag => Course(past, None, NoDrag, 0, None, NoDrag)
    case CancelDrag => Course(past, None, NoDrag, 0, None, NoDrag)
    case SurfaceGone(surface) => if c.over == Some(surface) then Away(c) else c
    case SourceGone(lost) =>
      var ended := if lost in c.past.dragged then Course(past, None, NoDrag, 0, c.over, c.motion) else c;
      if lost in c.past.live then Away(ended) else ended
    case _ => c
  }

  function FollowAll(c: Course, ops: seq<Op>): Course
    decreases |ops|
  {
    if ops == [] then c else FollowAll(Follow(c, ops[0]), ops[1..])
  }

  function CourseOf(p: Pool): Course {
    Course(MemoryOf(p), p.origin.surface, p.origin.mode, p.origin.serial, p.target.surface, p.target.motion)
  }

  lemma NowhereIsStill(p: Pool)
    requires Valid(p)
    ensures p.target.surface.None? ==> p.target.motion.NoDrag?
  {
  }

  lemma BeginIsFollowed(p: Pool, op: Op)
    requires Valid(p) && op.Begin?
    ensures CourseOf(Step(p, op)) == Follow(CourseOf(p), op)
  {
    StepIsRemembered(p, op);
    hide Told, Filter, Valid, MemoryOf, Remember;
  }

  lemma TargetIsFollowed(p: Pool, op: Op)
    requires Valid(p) && op.SetTarget?
    ensures CourseOf(Step(p, op)) == Follow(CourseOf(p), op)
  {
    NowhereIsStill(p);
    StepIsRemembered(p, op);
    hide Told, Filter, Valid, MemoryOf;
  }

  lemma EndIsFollowed(p: Pool, op: Op)
    requires Valid(p) && (op.DropDrag? || op.CancelDrag?)
    ensures CourseOf(Step(p, op)) == Follow(CourseOf(p), op)
  {
    StepIsRemembered(p, op);
    hide Told, Valid, MemoryOf, Remember;
  }

  lemma GoneIsFollowed(p: Pool, op: Op)
    requires Valid(p) && (op.SurfaceGone? || op.SourceGone?)
    ensures CourseOf(Step(p, op)) == Follow(CourseOf(p), op)
  {
    NowhereIsStill(p);
    StepIsRemembered(p, op);
    hide Told, LogOk, NoDup;
  }

  lemma StepIsFollowed(p: Pool, op: Op)
    requires Valid(p) && Enabled(p, op)
    ensures CourseOf(Step(p, op)) == Follow(CourseOf(p), op)
  {
    if op.Begin? { BeginIsFollowed(p, op); }
    else if op.SetTarget? { TargetIsFollowed(p, op); }
    else if op.DropDrag? || op.CancelDrag? { EndIsFollowed(p, op); }
    else if op.SurfaceGone? || op.SourceGone? { GoneIsFollowed(p, op); }
    else {
      hide Told, Valid;
      assert CourseOf(Step(p, op)) == CourseOf(p);
    }
  }

  lemma {:induction false} RunIsFollowed(p: Pool, ops: seq<Op>, q: Pool)
    requires Valid(p) && Run(p, ops) == Some(q)
    ensures CourseOf(q) == FollowAll(CourseOf(p), ops)
    decreases |ops|
  {
    if ops != [] {
      hide Step, Valid, Enabled, CourseOf, Follow;
      StepKeeps(p, ops[0]);
      StepIsFollowed(p, ops[0]);
      RunIsFollowed(Step(p, ops[0]), ops[1..], q);
    }
  }

  /** After any run the surface under the drag, its mode and the motion that is passed on are told by the
      operations alone; and only devices of that surface's client are entered. */
  lemma TargetIsWhereItWasMoved(clock: nat, ops: seq<Op>, q: Pool)
    requires Run(Idle(clock), ops) == Some(q)
    ensures
      var c := FollowAll(NO_COURSE, ops);
      && q.target.surface == c.over && q.target.motion == c.motion && q.origin.mode == c.mode
      && q.origin.serial == c.serial && q.origin.src == c.past.src && q.origin.surface == c.from
    ensures forall d :: d in q.target.devices ==>
      d in q.devices && q.target.surface.Some? && d.client == q.target.surface.value.client
  {
    RunIsFollowed(Idle(clock), ops, q);
  }

  // ---------------------------------------------------------------- the events of a step

  predicate OfSurface(d: Device, surface: Option<Surface>) {
    surface.Some? && surface.value.client == d.client
  }

  predicate Entered(p: Pool, d: Device) {
    d in p.target.devices
  }

  function If(b: bool, e: Event): seq<Event> {
    if b then [e] else []
  }

  /** What the step tells a data device that was there before. */
  function NewEvents(p: Pool, op: Op, d: Device): seq<Event> {
    match op
    case Begin(_, origin, _, serial) =>
      If(Entered(p, d), Leave) + If(origin.client == d.client, Enter(serial, origin))
    case SetTarget(surface) =>
      if surface == p.target.surface then []
      else If(Entered(p, d), Leave)
           + if OfSurface(d, surface) then [Enter(NextSerial(p.serial), surface.value)] else []
    case PointerMoved => If(Entered(p, d) && p.target.motion.PointerDrag?, Motion)
    case TouchMoved(serial) => If(Entered(p, d) && p.target.motion.TouchDrag? && serial == p.origin.serial, Motion)
    case DropDrag => If(Entered(p, d), Drop)
    case CancelDrag => If(Entered(p, d), Leave)
    case SurfaceGone(surface) => If(Entered(p, d) && p.target.surface == Some(surface), Leave)
    case SourceGone(lost) => If(Entered(p, d) && lost in p.cancelling, Leave)
    case Register(_) => []
    case DeviceGone(_) => []
  }

  ghost predicate Hears(p: Pool, q: Pool, d: Device, events: seq<Event>) {
    d in p.logs && d in q.logs && q.logs[d] == p.logs[d] + events
  }

  lemma Joined(clients: seq<Device>, surface: Option<Surface>, d: Device)
    requires d in clients
    ensures d in ForSurface(surface, clients, OfClient) <==> OfSurface(d, surface)
  {
  }

  lemma CancelTells(p: Pool, d: Device)
    requires AlmostValid(p) && d in p.logs
    ensures Hears(p, DoCancelTarget(p), d, If(Entered(p, d), Leave))
  {
    hide LogOk, NoDup;
  }

  lemma EnterTells(p: Pool, surface: Option<Surface>, serial: nat, d: Device)
    requires Valid(p) && p.target == NO_TARGET && d in p.logs
    ensures Hears(p, EnterTarget(p, surface, serial), d,
                  if OfSurface(d, surface) then [Enter(serial, surface.value)] else [])
  {
    assert d in p.devices;
    Joined(p.devices, surface, d);
    hide Valid, Filter, ForSurface;
    var list := ForSurface(surface, p.devices, OfClient);
    assert p.target.devices + list == list;
  }

  lemma UpdateTells(p: Pool, surface: Option<Surface>, serial: nat, d: Device)
    requires AlmostValid(p) && d in p.logs
    ensures Hears(p, DoUpdateTarget(p, surface, serial), d,
                  If(Entered(p, d), Leave) + if OfSurface(d, surface) then [Enter(serial, surface.value)] else [])
  {
    CancelTargetKeeps(p);
    CancelTells(p, d);
    hide AlmostValid, Valid, DoCancelTarget, EnterTarget;
    EnterTells(DoCancelTarget(p), surface, serial, d);
  }

  lemma BeginTells(p: Pool, op: Op, d: Device)
    requires Valid(p) && op.Begin? && d in p.logs
    ensures Hears(p, Step(p, op), d, NewEvents(p, op, d))
  {
    BegunIsAlmostValid(p, op.src, op.origin, op.mode, op.serial);
    hide Valid, AlmostValid, DoUpdateTarget;
    UpdateTells(Begun(p, op.src, op.origin, op.mode, op.serial), Some(op.origin), op.serial, d);
  }

  lemma HearsBoth(p: Pool, a: Pool, b: Pool, q: Pool, d: Device, first: seq<Event>, second: seq<Event>)
    requires Hears(p, a, d, first) && b.logs == a.logs && Hears(b, q, d, second)
    ensures Hears(p, q, d, first + second)
  {
  }

  lemma TargetTells(p: Pool, surface: Option<Surface>, d: Device)
    requires Valid(p) && d in p.logs
    ensures Hears(p, Step(p, SetTarget(surface)), d, NewEvents(p, SetTarget(surface), d))
  {
    if surface != p.target.surface {
      NewTargetTells(p, surface, d);
      hide Valid, DoSetTarget;
    }
  }

  lemma NewTargetTells(p: Pool, surface: Option<Surface>, d: Device)
    requires Valid(p) && d in p.logs && surface != p.target.surface
    ensures Hears(p, DoSetTarget(p, surface), d,
                  If(Entered(p, d), Leave)
                  + if OfSurface(d, surface) then [Enter(NextSerial(p.serial), surface.value)] else [])
  {
    assert AlmostValid(p);
    hide Valid, AlmostValid, EnterTarget, DoCancelTarget, DoSetTarget;
    CancelTells(p, d);
    CancelTargetKeeps(p);
    SetTargetEnters(p, surface);
    var a := DoCancelTarget(p);
    var q := a.(serial := NextSerial(p.serial));
    Renumbered(a, q.serial);
    EnterTells(q, surface, q.serial, d);
    HearsBoth(p, a, q, DoSetTarget(p, surface), d, If(Entered(p, d), Leave),
              if OfSurface(d, surface) then [Enter(NextSerial(p.serial), surface.value)] else []);
    hide Hears;
  }

  lemma SetTargetEnters(p: Pool, surface: Option<Surface>)
    requires Valid(p) && surface != p.target.surface
    ensures
      var q := DoCancelTarget(p).(serial := NextSerial(p.serial));
      DoSetTarget(p, surface) == EnterTarget(q, surface, q.serial)
  {
    CancelTargetKeeps(p);
    hide Valid, AlmostValid, EnterTarget, Told;
    var q := DoCancelTarget(p).(serial := NextSerial(p.serial));
    assert DoCancelTarget(q) == q && DoCancelTarget(p).serial == p.serial;
  }

  lemma EndTellsDevices(p: Pool, op: Op, d: Device)
    requires Valid(p) && (op.DropDrag? || op.CancelDrag?) && d in p.logs
    ensures Hears(p, Step(p, op), d, NewEvents(p, op, d))
  {
    hide LogOk, NoDup;
  }

  lemma GoneTells(p: Pool, op: Op, d: Device)
    requires Valid(p) && (op.SurfaceGone? || op.SourceGone?) && d in p.logs
    ensures Hears(p, Step(p, op), d, NewEvents(p, op, d))
  {
    hide LogOk, NoDup;
  }

  /** Every step tells every data device exactly what its operation calls for: a surface that the drag
      moves to is entered by the devices of its client, once, with a fresh serial, after the old targets
      left; a motion goes to the targets of a drag of that kind; and nothing else is told. */
  lemma StepTells(p: Pool, op: Op, d: Device)
    requires Valid(p) && Enabled(p, op) && d in p.logs && op != DeviceGone(d)
    ensures Hears(p, Step(p, op), d, NewEvents(p, op, d))
  {
    if op.Begin? { BeginTells(p, op, d); }
    else if op.SetTarget? { TargetTells(p, op.surface, d); }
    else if op.DropDrag? || op.CancelDrag? { EndTellsDevices(p, op, d); }
    else if op.SurfaceGone? || op.SourceGone? { GoneTells(p, op, d); }
    else { hide LogOk, NoDup, RemoveOne; }
  }

  /** A new device hears nothing of a drag that is under way. */
  lemma NewDeviceHearsNothing(p: Pool, d: Device)
    requires d !in p.devices
    ensures d in Step(p, Register(d)).logs && Step(p, Register(d)).logs[d] == []
  {
  }

  // ---------------------------------------------------------------- the source

  predicate NobodyOf(p: Pool, surface: Option<Surface>) {
    surface.None? || forall d :: d in p.devices ==> d.client != surface.value.client
  }

  /** What the step tells the source: that no target takes the drag, or that it was dropped. */
  function SourceEvents(p: Pool, op: Op): seq<SourceEvent> {
    match op
    case Begin(src, origin, _, _) => if src.Some? && NobodyOf(p, Some(origin)) then [NoAction(src.value)] else []
    case SetTarget(surface) =>
      if surface != p.target.surface && p.origin.src.Some? && NobodyOf(p, surface)
      then [NoAction(p.origin.src.value)] else []
    case DropDrag => if p.origin.src.Some? then [DropPerformed(p.origin.src.value)] else []
    case CancelDrag => if p.origin.src.Some? then [DropPerformed(p.origin.src.value)] else []
    case _ => []
  }

  lemma NobodyIsEmpty(p: Pool, surface: Option<Surface>)
    ensures NobodyOf(p, surface) <==> ForSurface(surface, p.devices, OfClient) == []
  {
    var list := ForSurface(surface, p.devices, OfClient);
    if list != [] { assert list[0] in list; }
  }

  /** Every step tells the sources just that, and draws a serial only to enter a new surface. */
  lemma StepTellsSource(p: Pool, op: Op)
    requires Valid(p) && Enabled(p, op)
    ensures Step(p, op).toSources == p.toSources + SourceEvents(p, op)
    ensures Step(p, op).serial == if op.SetTarget? && op.surface != p.target.surface then NextSerial(p.serial)
                                  else p.serial
  {
    hide Told, Filter, ForSurface, LogOk, NoDup, NobodyOf;
    if op.Begin? || op.SetTarget? { MoveTellsSource(p, op); } else { EndTellsSource(p, op); }
  }

  lemma MoveTellsSource(p: Pool, op: Op)
    requires op.Begin? || op.SetTarget?
    ensures Step(p, op).toSources == p.toSources + SourceEvents(p, op)
    ensures Step(p, op).serial == if op.SetTarget? && op.surface != p.target.surface then NextSerial(p.serial)
                                  else p.serial
  {
    hide Told, Filter, ForSurface, NobodyOf;
    if op.Begin? { NobodyIsEmpty(p, Some(op.origin)); } else { NobodyIsEmpty(p, op.surface); }
  }

  lemma EndTellsSource(p: Pool, op: Op)
    requires Valid(p) && Enabled(p, op) && !op.Begin? && !op.SetTarget?
    ensures Step(p, op).toSources == p.toSources + SourceEvents(p, op) && Step(p, op).serial == p.serial
  {
    hide Told, Filter, ForSurface, LogOk, NoDup, NobodyOf, RemoveOne, TargetOk;
  }
}
