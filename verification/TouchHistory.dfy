/** The touch points against the operations made of the pool: which points are down, which of them a
    device saw, and what each step tells each device. */
module TouchHistory {
  import opened Seqs
  import opened Devices
  import opened TouchPoints

  // ---------------------------------------------------------------- the points

  /** What the operations so far leave: the points that are down, the focus surface, and for each device
      the points that went down since it was created. */
  datatype Course = Course(points: set<nat>, surface: Option<Surface>, seen: map<Device, set<nat>>)

  const NO_COURSE := Course({}, None, map[])

  /** The focus moves between touch sequences only. */
  ghost function Follow(c: Course, op: Op): Course {
    match op
    case Create(d) => c.(seen := c.seen[d := {}])
    case Destroy(d) => c.(seen := c.seen - {d})
    case SetFocus(surface) => if c.points == {} then c.(surface := surface) else c
    case SurfaceGone(surface) => if c.surface == Some(surface) then c.(surface := None) else c
    case TouchDown(id) => c.(points := c.points + {id}, seen := map d | d in c.seen :: c.seen[d] + {id})
    case TouchUp(id) => c.(points := c.points - {id}, seen := map d | d in c.seen :: c.seen[d] - {id})
    case CancelSequence => c.(points := {}, seen := map d | d in c.seen :: {})
    case Other => c
  }

  ghost function FollowAll(c: Course, ops: seq<Op>): Course
    decreases |ops|
  {
    if ops == [] then c else FollowAll(Follow(c, ops[0]), ops[1..])
  }

  ghost function CourseOf(p: Pool): Course {
    Course(p.ids.Keys, p.surface, map d | d in p.desks :: Since(p.stamps, p.desks[d].since))
  }

  lemma CreateIsFollowed(p: Pool, d: Device)
    requires Valid(p) && d !in p.devices
    ensures CourseOf(DoCreate(p, d)) == Follow(CourseOf(p), Create(d))
  {
    NothingSince(p);
    hide Valid;
    assert CourseOf(DoCreate(p, d)).seen == CourseOf(p).seen[d := {}];
  }

  lemma DestroyIsFollowed(p: Pool, d: Device)
    ensures CourseOf(DoDestroy(p, d)) == Follow(CourseOf(p), Destroy(d))
  {
    hide RemoveOne, Since;
    assert CourseOf(DoDestroy(p, d)).seen == CourseOf(p).seen - {d};
  }

  /** A new point is newer than every device. */
  lemma DownIsFollowed(p: Pool, id: nat)
    requires Valid(p)
    ensures CourseOf(DoDown(p, id)) == Follow(CourseOf(p), TouchDown(id))
  {
    var q := DoDown(p, id);
    forall d | d in p.desks ensures Since(q.stamps, q.desks[d].since) == Since(p.stamps, p.desks[d].since) + {id} {
      assert d in p.devices && DeskOk(p, d);
    }
    hide Valid, Since;
    assert CourseOf(q).seen == Follow(CourseOf(p), TouchDown(id)).seen;
  }

  lemma UpIsFollowed(p: Pool, id: nat)
    ensures CourseOf(DoUp(p, id)) == Follow(CourseOf(p), TouchUp(id))
  {
    var q := DoUp(p, id);
    forall d | d in p.desks ensures Since(q.stamps, q.desks[d].since) == Since(p.stamps, p.desks[d].since) - {id} {}
    hide Since;
    assert CourseOf(q).seen == Follow(CourseOf(p), TouchUp(id)).seen;
  }

  lemma CancelIsFollowed(p: Pool)
    ensures CourseOf(DoCancel(p)) == Follow(CourseOf(p), CancelSequence)
  {
    assert forall d :: d in p.desks ==> Since(map[], p.desks[d].since) == {};
    assert CourseOf(DoCancel(p)).seen == Follow(CourseOf(p), CancelSequence).seen;
  }

  lemma FocusIsFollowed(p: Pool, op: Op)
    requires op.SetFocus? || op.SurfaceGone? || op.Other?
    ensures CourseOf(Step(p, op)) == Follow(CourseOf(p), op)
  {
    hide Filter, Since;
    assert p.ids == map[] <==> p.ids.Keys == {};
    assert CourseOf(Step(p, op)).seen == CourseOf(p).seen;
  }

  lemma StepIsFollowed(p: Pool, op: Op)
    requires Valid(p) && Enabled(p, op)
    ensures CourseOf(Step(p, op)) == Follow(CourseOf(p), op)
  {
    hide Valid, CourseOf, Follow, DoCreate, DoDestroy, DoDown, DoUp, DoCancel;
    match op {
      case Create(d) => CreateIsFollowed(p, d);
      case Destroy(d) => DestroyIsFollowed(p, d);
      case TouchDown(id) => DownIsFollowed(p, id);
      case TouchUp(id) => UpIsFollowed(p, id);
      case CancelSequence => CancelIsFollowed(p);
      case _ => FocusIsFollowed(p, op);
    }
  }

  lemma {:induction false} RunIsFollowed(p: Pool, ops: seq<Op>, q: Pool)
    requires Valid(p) && Run(p, ops) == Some(q)
    ensures CourseOf(q) == FollowAll(CourseOf(p), ops)
    decreases |ops|
  {
    if ops != [] {
      hide Step, Valid, Enabled, CourseOf, Follow;
      StepKeeps(p, ops[0]);
      StepIsFollowed(p, ops[0]);
      RunIsFollowed(Step(p, ops[0]), ops[1..], q);
    }
  }

  /** After any run, told by the operations alone: a device of the client under the touch believes those
      points to be down that went down since it was created and were neither lifted nor cancelled; any
      other device believes in none. */
  lemma DevicesKnowWhatIsDown(clock: nat, hasPointer: bool, ops: seq<Op>, q: Pool, d: Device)
    requires Run(Start(clock, hasPointer), ops) == Some(q) && d in FollowAll(NO_COURSE, ops).seen
    ensures
      var c := FollowAll(NO_COURSE, ops);
      && q.ids.Keys == c.points && q.surface == c.surface
      && d in q.desks
      && Live(q.desks[d].log) == if c.surface.Some? && c.surface.value.client == d.client then c.seen[d] else {}
  {
    assert CourseOf(Start(clock, hasPointer)) == NO_COURSE;
    RunIsFollowed(Start(clock, hasPointer), ops, q);
    assert d in q.devices;
    TouchViewAgrees(clock, hasPointer, ops, q, d);
    hide Valid, Live, Since;
  }

  // ---------------------------------------------------------------- the events of a step

  predicate Focused(p: Pool, d: Device) {
    p.surface.Some? && p.surface.value.client == d.client
  }

  /** What the step tells a device that was there before. */
  function NewEvents(p: Pool, op: Op, d: Device): seq<Event> {
    if !Focused(p, d) then []
    else
      match op
      case TouchDown(id) => [Down(id, Wire(p.clock + 1))]
      case TouchUp(id) => [Up(id, Wire(p.clock + 1))]
      case CancelSequence => [Cancel]
      case SurfaceGone(surface) => if p.surface == Some(surface) && p.ids.Keys != {} then [Cancel] else []
      case _ => []
  }

  /** Every step tells every device exactly that; a point that goes down is kept with the serial that was
      sent for it, and the others with theirs. */
  lemma StepTells(p: Pool, op: Op, d: Device)
    requires Valid(p) && Enabled(p, op) && d in p.desks && op != Destroy(d)
    ensures d in Step(p, op).desks && Step(p, op).desks[d].log == p.desks[d].log + NewEvents(p, op, d)
  {
    assert p.ids == map[] <==> p.ids.Keys == {};
    assert d in p.devices && (d in p.focus <==> Focused(p, d));
    hide Valid, Filter, ForSurface, RemoveOne, Wire;
  }

  lemma SerialsAreKept(p: Pool, op: Op, id: nat)
    requires Valid(p) && Enabled(p, op) && id in Step(p, op).ids
    ensures id in p.ids || op == TouchDown(id)
    ensures Step(p, op).ids[id] == if op == TouchDown(id) then Wire(p.clock + 1) else p.ids[id]
  {
    hide Valid, Filter, RemoveOne, Wire;
  }

  /** A point that goes down or up draws a serial, and one more when the pointer plays the point. */
  lemma StepDraws(p: Pool, op: Op)
    requires Valid(p) && Enabled(p, op)
    ensures Step(p, op).clock == p.clock +
      match op
      case TouchDown(_) => 1
      case TouchUp(id) => if id == 0 && p.hasPointer && p.focus == [] then 2 else 1
      case Other => 1
      case _ => 0
  {
    hide Valid, Filter, RemoveOne;
  }
}
