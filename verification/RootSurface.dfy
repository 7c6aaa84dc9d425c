/** A surface without a subsurface role: its double buffering, gated by update flags, is that of a
    server that keeps one full pending copy and copies it whole on commit. */
module RootSurface {
  import opened Seqs
  import opened Restack
  import opened SurfaceTree
  import opened TreeWalk
  import opened AtomicCommit

  // ---------------------------------------------------------------- the two servers

  datatype Fields = Fields(
    buffer: Option<Buffer>,
    opaqueRegion: Region,
    input: Region,
    inputIsInfinite: bool,
    scale: int,
    sourceRect: Rect,
    destination: Size,
    children: seq<Subsurface>)

  function FieldsOf(st: SurfaceState): Fields {
    Fields(st.buffer, st.opaqueRegion, st.input, st.inputIsInfinite, st.scale, st.sourceRect,
           st.destination, st.children)
  }

  /** A server that keeps everything twice. */
  datatype Simple = Simple(current: Fields, pending: Fields)

  /** What happens to one root surface. */
  datatype Event =
    | Requests(request: Request)
    | Commits
    | GetsChild(child: Subsurface)
    | LosesChild(child: Subsurface)
    | ShowsChild(child: Subsurface)
    | Restacks(child: Subsurface, sibling: Sibling<Subsurface>, dir: Direction)
    | LosesBuffer(buffer: Buffer)
    | NoEvent

  function Drop(b: Option<Buffer>, lost: Buffer): Option<Buffer> {
    if b == Some(lost) then None else b
  }

  function RestackedList(list: seq<Subsurface>, child: Subsurface, at: Sibling<Subsurface>, dir: Direction)
    : Outcome<Subsurface>
  {
    if dir == Above then Raise(list, child, at) else Lower(list, child, at)
  }

  function SimpleStep(m: Simple, e: Event): Simple {
    match e
    case Requests(Attach(b, _)) => m.(pending := m.pending.(buffer := b))
    case Requests(SetOpaque(g)) => m.(pending := m.pending.(opaqueRegion := g))
    case Requests(SetInput(g, inf)) => m.(pending := m.pending.(input := g, inputIsInfinite := inf))
    case Requests(SetScale(n)) => m.(pending := m.pending.(scale := n))
    case Requests(SetSource(g)) => m.(pending := m.pending.(sourceRect := g))
    case Requests(SetDestination(z)) => m.(pending := m.pending.(destination := z))
    case Requests(_) => m
    case Commits => m.(current := m.pending)
    case GetsChild(c) => m.(pending := m.pending.(children := m.pending.children + [c]))
    case LosesChild(c) =>
      m.(pending := m.pending.(children := Without(m.pending.children, c)),
         current := m.current.(children := Without(m.current.children, c)))
    case ShowsChild(c) =>
      if c in m.current.children then m
      else m.(current := m.current.(children := m.current.children + [c]))
    case Restacks(c, at, dir) =>
      m.(pending := m.pending.(children := RestackedList(m.pending.children, c, at, dir).list))
    case LosesBuffer(b) =>
      m.(pending := m.pending.(buffer := Drop(m.pending.buffer, b)),
         current := m.current.(buffer := Drop(m.current.buffer, b)))
    case NoEvent => m
  }

  /** The simulation relation: a field whose flag is up is pending, any other is what is current. */
  function Abstract(r: SurfaceRec): Simple {
    var cur, pend, up := FieldsOf(r.current), FieldsOf(r.pending), r.pending.updates;
    Simple(cur, Fields(
      if BufferSet in up then pend.buffer else cur.buffer,
      if OpaqueSet in up then pend.opaqueRegion else cur.opaqueRegion,
      if InputSet in up then pend.input else cur.input,
      if InputSet in up then pend.inputIsInfinite else cur.inputIsInfinite,
      if ScaleSet in up then pend.scale else cur.scale,
      if SourceSet in up then pend.sourceRect else cur.sourceRect,
      if r.pending.destinationIsSet then pend.destination else cur.destination,
      if ChildrenSet in up then pend.children else cur.children))
  }

  // ---------------------------------------------------------------- the invariant

  /** The subsurfaces whose parent is `s`. */
  function Children(sh: Shape, s: Surface): set<Subsurface> {
    set u | u in sh.parent && sh.parent[u] == s
  }

  /** The pending children are exactly `children`, each once; the current ones are among them, and the
      same sequence unless the children flag is up. */
  ghost predicate ListsAgree(r: SurfaceRec, children: set<Subsurface>) {
    var cur, pend := r.current.children, r.pending.children;
    && NoDup(pend)
    && (forall u :: u in pend ==> u in children)
    && (forall u :: u in children ==> u in pend)
    && (forall u :: u in cur ==> u in pend)
    && (ChildrenSet !in r.pending.updates ==> cur == pend)
  }

  ghost predicate RootInvariant(t: Tree, s: Surface)
    requires Valid(t) && s in t.surf
  {
    && ListsAgree(t.surf[s], Children(t.shape, s))
    && (t.surf[s].pending.buffer.Some? ==> t.surf[s].pending.buffer != t.surf[s].current.buffer)
  }

  // ---------------------------------------------------------------- one step

  /** What an operation on the tree is to the surface `s`. */
  function EventAt(t: Tree, op: Op, s: Surface): Event
    requires Enabled(t, op)
  {
    match op
    case StateRequest(x, r) => if x == s then Requests(r) else NoEvent
    case CommitSurface(x) => if x == s then Commits else NoEvent
    case CreateSubsurface(u, _, p) => if p == s then GetsChild(u) else NoEvent
    case DestroySubsurface(u) => if t.shape.parent[u] == s then LosesChild(u) else NoEvent
    case DestroySurface(x) =>
      assert RoleOk(t.shape, x);
      var u := t.shape.role[x];
      if u != null && t.shape.parent[u] == s then LosesChild(u) else NoEvent
    case SetMode(u, m) =>
      if m == Desynchronized && t.shape.mode[u] != m && t.shape.parent[u] == s then ShowsChild(u) else NoEvent
    case Place(u, sibling, dir) =>
      if t.shape.parent[u] == s then Restacks(u, SiblingOf(t.shape, s, sibling), dir) else NoEvent
    case BufferGone(x, b) => if x == s then LosesBuffer(b) else NoEvent
    case _ => NoEvent
  }

  /** The parts of a record that this module speaks about are the same. */
  ghost predicate SameBuffers(a: SurfaceRec, b: SurfaceRec) {
    && FieldsOf(a.current) == FieldsOf(b.current)
    && FieldsOf(a.pending) == FieldsOf(b.pending)
    && a.pending.updates == b.pending.updates
    && a.pending.destinationIsSet == b.pending.destinationIsSet
  }

  /** An update elsewhere does not reach a root. */
  lemma RootIsOutside(t: Tree, r: Tree, x: Surface, from: Source, s: Surface)
    requires Updated(t, r, x, from) && s in t.surf && t.shape.role[s] == null && s != x
    ensures ButUpdates(t.surf[s], r.surf[s])
  {
    assert r.surf[s] == Expected(t, r, x, from, s);
  }

  lemma CommitElsewhere(t: Tree, x: Surface, s: Surface)
    requires Valid(t) && x in t.surf && s in t.surf && t.shape.role[s] == null && s != x
    ensures ButUpdates(t.surf[s], DoCommit(t, x).surf[s])
  {
    if !SyncedRole(t.shape, x) {
      CommitIsAtomic(t, x);
      RootIsOutside(t, DoCommit(t, x), x, FromPending, s);
    }
  }

  lemma CommitHere(t: Tree, s: Surface)
    requires Valid(t) && s in t.surf && t.shape.role[s] == null
    ensures
      var r, taken := DoCommit(t, s), Taken(t.surf[s], t.surf[s].pending);
      ButUpdates(taken.(pending := Blank(taken.current.children)), r.surf[s])
  {
    CommitIsAtomic(t, s);
    assert DoCommit(t, s).surf[s] == Expected(t, DoCommit(t, s), s, FromPending, s);
  }

  /** The root's own record when its child `u` is shown. */
  function ShownRecord(t: Tree, u: Subsurface, s: Surface): SurfaceRec
    requires Valid(t) && u in t.sub && s in t.surf
  {
    var rec := t.surf[s];
    if t.shape.parent[u] != s || u in rec.current.children then rec
    else rec.(current := rec.current.(children := rec.current.children + [u]))
  }

  lemma ShownOnRoot(t: Tree, u: Subsurface, s: Surface)
    requires Valid(t) && u in t.sub && s in t.surf && t.shape.parent[u] != null
    ensures s in Shown(t, u).surf && Shown(t, u).surf[s] == ShownRecord(t, u, s)
    ensures Shown(t, u).shape.role == t.shape.role
  {
    assert SubsurfaceOk(t.shape, u);
  }

  lemma FlushesOnRoot(t: Tree, u: Subsurface, m: Mode, s: Surface)
    requires Enabled(t, SetMode(u, m)) && s in t.surf && t.shape.role[s] == null
    ensures EventAt(t, SetMode(u, m), s) == ShowsChild(u) <==> Flushes(t, u, m) && t.shape.parent[u] == s
    ensures EventAt(t, SetMode(u, m), s) == ShowsChild(u) || EventAt(t, SetMode(u, m), s) == NoEvent
  {
  }

  lemma SetModeOnRoot(t: Tree, u: Subsurface, m: Mode, s: Surface)
    requires Enabled(t, SetMode(u, m)) && s in t.surf && t.shape.role[s] == null
    ensures
      && s in Step(t, SetMode(u, m)).surf
      && ButUpdates(if EventAt(t, SetMode(u, m), s) == ShowsChild(u) then ShownRecord(t, u, s) else t.surf[s],
                    Step(t, SetMode(u, m)).surf[s])
  {
    FlushIsAtomic(t, u, m);
    FlushesOnRoot(t, u, m, s);
    assert SubsurfaceOk(t.shape, u);
    if Flushes(t, u, m) {
      ShownOnRoot(t, u, s);
      assert s != t.shape.surface[u];
      RootIsOutside(Shown(t, u), DoSetMode(t, u, m), t.shape.surface[u], FromCached, s);
    }
  }

  /** What the code does to the record of a root. */
  function RootRecord(r: SurfaceRec, e: Event): SurfaceRec
    requires r.pending.feedbacks.Some?
  {
    var cur, pend := r.current, r.pending;
    match e
    case Requests(q) => r.(pending := Requested(pend, q))
    case Commits =>
      var taken := Taken(r, pend);
      taken.(pending := Blank(taken.current.children))
    case GetsChild(c) =>
      r.(pending := pend.(children := pend.children + [c], updates := pend.updates + {ChildrenSet}))
    case LosesChild(c) =>
      r.(pending := pend.(children := Without(pend.children, c)),
         current := cur.(children := Without(cur.children, c)))
    case ShowsChild(c) =>
      if c in cur.children then r else r.(current := cur.(children := cur.children + [c]))
    case Restacks(c, at, dir) =>
      var o := RestackedList(pend.children, c, at, dir);
      if o.changed then r.(pending := pend.(children := o.list, updates := pend.updates + {ChildrenSet})) else r
    case LosesBuffer(b) =>
      if pend.buffer == Some(b) then r.(pending := pend.(buffer := None))
      else r.(current := cur.(buffer := Drop(cur.buffer, b)))
    case NoEvent => r
  }

  lemma RenderOnRoot(t: Tree, x: Surface, s: Surface)
    requires Valid(t) && x in t.surf && s in t.surf
    ensures SameBuffers(t.surf[s], Render(t, x).surf[s])
    decreases t.shape.bound - (if x in t.shape.depth then t.shape.depth[x] else 0), 1, 0
  {
    SourceIsOk(t, x, FromPending);
    var t1 := PutSurface(t, x, Drained(t.surf[x]));
    RenderAllOnRoot(t1, x, t.surf[x].current.children, s);
  }

  lemma {:induction false} RenderAllOnRoot(t: Tree, p: Surface, list: seq<Subsurface>, s: Surface)
    requires Valid(t) && p in t.surf && ChildrenOk(t.shape, p, list) && s in t.surf
    ensures SameBuffers(t.surf[s], RenderAll(t, p, list).surf[s])
    decreases t.shape.bound - (if p in t.shape.depth then t.shape.depth[p] else 0), 0, |list|
  {
    if list != [] {
      assert SubsurfaceOk(t.shape, list[0]);
      var t1 := Render(t, t.shape.surface[list[0]]);
      RenderOnRoot(t, t.shape.surface[list[0]], s);
      RenderAllOnRoot(t1, p, list[1..], s);
    }
  }

  // One lemma an operation: what it does to the record of a root.

  lemma CreateSurfaceOnRoot(t: Tree, x: Surface, s: Surface)
    requires Enabled(t, CreateSurface(x)) && s in t.surf
    ensures s in DoCreateSurface(t, x).surf && DoCreateSurface(t, x).surf[s] == t.surf[s]
  {
  }

  lemma CreateSubsurfaceOnRoot(t: Tree, u: Subsurface, x: Surface, p: Surface, s: Surface)
    requires Enabled(t, CreateSubsurface(u, x, p)) && s in t.surf && t.shape.role[s] == null && s != x
    requires t.surf[s].pending.feedbacks.Some?
    ensures s in DoCreateSubsurface(t, u, x, p).surf
    ensures DoCreateSubsurface(t, u, x, p).surf[s]
            == RootRecord(t.surf[s], if p == s then GetsChild(u) else NoEvent)
  {
  }

  lemma DetachOnRoot(t: Tree, u: Subsurface, s: Surface)
    requires Valid(t) && u in t.sub && s in t.surf && t.shape.role[s] == null
    requires t.surf[s].pending.feedbacks.Some?
    ensures Detach(t, u).surf[s] == RootRecord(t.surf[s], if t.shape.parent[u] == s then LosesChild(u) else NoEvent)
  {
    hide Patched, Requested, RestackedList, Without;
    assert SubsurfaceOk(t.shape, u);
  }

  lemma DestroySubsurfaceOnRoot(t: Tree, u: Subsurface, s: Surface)
    requires Valid(t) && u in t.sub && s in t.surf && t.shape.role[s] == null
    requires t.surf[s].pending.feedbacks.Some?
    ensures s in DoDestroySubsurface(t, u).surf
    ensures DoDestroySubsurface(t, u).surf[s]
            == RootRecord(t.surf[s], if t.shape.parent[u] == s then LosesChild(u) else NoEvent)
  {
    hide RootRecord, Detach;
    DetachOnRoot(t, u, s);
    var d := Detach(t, u);
    assert SubsurfaceOk(t.shape, u);
    assert DropCache(d, u).surf[s] == d.surf[s];
  }

  lemma DestroySurfaceOnRoot(t: Tree, x: Surface, s: Surface)
    requires Enabled(t, DestroySurface(x)) && s in t.surf && t.shape.role[s] == null && s != x
    requires t.surf[s].pending.feedbacks.Some?
    ensures s in DoDestroySurface(t, x).surf
    ensures DoDestroySurface(t, x).surf[s] == RootRecord(t.surf[s], EventAt(t, DestroySurface(x), s))
  {
    assert RoleOk(t.shape, x);
    if t.shape.role[x] != null { DetachOnRoot(t, t.shape.role[x], s); }
  }

  lemma PlaceOnRoot(t: Tree, u: Subsurface, sibling: Surface, dir: Direction, s: Surface)
    requires Enabled(t, Place(u, sibling, dir)) && s in t.surf
    requires t.surf[s].pending.feedbacks.Some?
    ensures DoPlace(t, u, sibling, dir).surf[s] == RootRecord(t.surf[s], EventAt(t, Place(u, sibling, dir), s))
  {
    assert SubsurfaceOk(t.shape, u);
  }

  lemma BufferGoneOnRoot(t: Tree, x: Surface, b: Buffer, s: Surface)
    requires Valid(t) && x in t.surf && s in t.surf && t.shape.role[s] == null
    requires t.surf[s].pending.feedbacks.Some?
    ensures DoBufferGone(t, x, b).surf[s] == RootRecord(t.surf[s], if x == s then LosesBuffer(b) else NoEvent)
  {
  }

  lemma LockOnRoot(t: Tree, x: Surface, output: nat, s: Surface)
    requires Valid(t) && x in t.surf && s in t.surf
    ensures SameBuffers(t.surf[s], DoLock(t, x, output).surf[s])
  {
  }

  lemma AnswerOnRoot(t: Tree, x: Surface, id: nat, presented: bool, s: Surface)
    requires Valid(t) && x in t.surf && s in t.surf && id in t.surf[x].waiting
    ensures SameBuffers(t.surf[s], DoAnswer(t, x, id, presented).surf[s])
  {
  }

  lemma OutputGoneOnRoot(t: Tree, x: Surface, id: nat, s: Surface)
    requires Enabled(t, OutputGone(x, id)) && s in t.surf
    ensures SameBuffers(t.surf[s], DoOutputGone(t, x, id).surf[s])
  {
  }

  lemma FeedbackGoneOnRoot(t: Tree, x: Surface, place: Place, fb: nat, s: Surface)
    requires Valid(t) && x in t.surf && s in t.surf && fb in Held(t, x, place)
    ensures SameBuffers(t.surf[s], DoFeedbackGone(t, x, place, fb).surf[s])
  {
  }

  ghost predicate Matches(t: Tree, op: Op, s: Surface)
    requires Enabled(t, op) && s in t.surf && t.surf[s].pending.feedbacks.Some?
  {
    && s in Step(t, op).surf
    && SameBuffers(RootRecord(t.surf[s], EventAt(t, op, s)), Step(t, op).surf[s])
  }

  lemma CommitMatches(t: Tree, x: Surface, s: Surface)
    requires Valid(t) && x in t.surf && s in t.surf && t.shape.role[s] == null
    requires t.surf[s].pending.feedbacks.Some?
    ensures Matches(t, CommitSurface(x), s)
  {
    hide DoCommit, Patched, Requested, RestackedList;
    if x == s { CommitHere(t, s); } else { CommitElsewhere(t, x, s); }
  }

  /** The operation neither destroys the surface nor gives it a role. */
  predicate LeavesRoot(op: Op, s: Surface) {
    op.DestroySurface? || op.CreateSubsurface? ==> s != op.s
  }

  lemma ShapeMatches(t: Tree, op: Op, s: Surface)
    requires Enabled(t, op) && s in t.surf && t.shape.role[s] == null && t.surf[s].pending.feedbacks.Some?
    requires op.CreateSurface? || op.CreateSubsurface? || op.DestroySurface? || op.DestroySubsurface?
    requires LeavesRoot(op, s)
    ensures Matches(t, op, s)
  {
    hide Valid, Under, RootRecord, DoCreateSurface, DoCreateSubsurface, DoDestroySubsurface, DoDestroySurface;
    NoEventRecord(t.surf[s]);
    match op {
      case CreateSubsurface(u, x, p) => CreateSubsurfaceOnRoot(t, u, x, p, s);
      case DestroySubsurface(u) => DestroySubsurfaceOnRoot(t, u, s);
      case DestroySurface(x) => DestroySurfaceOnRoot(t, x, s);
      case CreateSurface(x) => CreateSurfaceOnRoot(t, x, s);
    }
  }

  lemma PlaceMatches(t: Tree, u: Subsurface, sibling: Surface, dir: Direction, s: Surface)
    requires Enabled(t, Place(u, sibling, dir)) && s in t.surf && t.surf[s].pending.feedbacks.Some?
    ensures Matches(t, Place(u, sibling, dir), s)
  {
    PlaceOnRoot(t, u, sibling, dir, s);
  }

  lemma BufferGoneMatches(t: Tree, x: Surface, b: Buffer, s: Surface)
    requires Valid(t) && x in t.surf && s in t.surf && t.shape.role[s] == null
    requires t.surf[s].pending.feedbacks.Some?
    ensures Matches(t, BufferGone(x, b), s)
  {
    BufferGoneOnRoot(t, x, b, s);
  }

  lemma SetModeMatches(t: Tree, u: Subsurface, m: Mode, s: Surface)
    requires Enabled(t, SetMode(u, m)) && s in t.surf && t.shape.role[s] == null
    requires t.surf[s].pending.feedbacks.Some?
    ensures Matches(t, SetMode(u, m), s)
  {
    hide DoSetMode;
    SetModeOnRoot(t, u, m, s);
    FlushesOnRoot(t, u, m, s);
  }

  lemma RequestMatches(t: Tree, op: Op, s: Surface)
    requires Enabled(t, op) && s in t.surf && t.surf[s].pending.feedbacks.Some?
    requires op.StateRequest? || op.SetPosition?
    ensures Matches(t, op, s)
  {
    hide DoSetMode;
  }

  lemma NoEventRecord(r: SurfaceRec)
    requires r.pending.feedbacks.Some?
    ensures RootRecord(r, NoEvent) == r
  {
  }

  lemma FeedbackMatches(t: Tree, op: Op, s: Surface)
    requires Enabled(t, op) && s in t.surf && t.surf[s].pending.feedbacks.Some?
    requires op.FrameRendered? || op.LockPresentation? || op.AnswerPresentation? || op.OutputGone? || op.FeedbackGone?
    ensures Matches(t, op, s)
  {
    hide Held, Render, DoLock, DoAnswer, DoOutputGone, DoFeedbackGone, RootRecord;
    NoEventRecord(t.surf[s]);
    match op {
      case FrameRendered(x) => RenderOnRoot(t, x, s);
      case LockPresentation(x, output) => LockOnRoot(t, x, output, s);
      case AnswerPresentation(x, id, presented) => AnswerOnRoot(t, x, id, presented, s);
      case OutputGone(x, id) => OutputGoneOnRoot(t, x, id, s);
      case FeedbackGone(x, place, fb) => FeedbackGoneOnRoot(t, x, place, fb, s);
    }
  }

  /** The surface stays, and stays without a role. */
  ghost predicate StaysRoot(t: Tree, op: Op, s: Surface)
    requires Enabled(t, op)
  {
    && s in t.surf && t.shape.role[s] == null
    && s in Step(t, op).surf && Step(t, op).shape.role[s] == null
  }

  lemma StaysRootMeans(t: Tree, op: Op, s: Surface)
    requires Enabled(t, op) && StaysRoot(t, op, s)
    ensures LeavesRoot(op, s)
  {
  }

  /** Each operation does to the root exactly what its event says, feedbacks and callbacks aside. */
  lemma StepOnRoot(t: Tree, op: Op, s: Surface)
    requires Enabled(t, op) && StaysRoot(t, op, s)
    ensures t.surf[s].pending.feedbacks.Some? && Matches(t, op, s)
  {
    SourceIsOk(t, s, FromPending);
    StaysRootMeans(t, op, s);
    if op.CommitSurface? { CommitMatches(t, op.s, s); }
    else if op.CreateSurface? || op.CreateSubsurface? || op.DestroySurface? || op.DestroySubsurface? {
      ShapeMatches(t, op, s);
    }
    else if op.StateRequest? || op.SetPosition? { RequestMatches(t, op, s); }
    else if op.SetMode? { SetModeMatches(t, op.u, op.mode, s); }
    else if op.Place? { PlaceMatches(t, op.u, op.sibling, op.dir, s); }
    else if op.BufferGone? { BufferGoneMatches(t, op.s, op.buffer, s); }
    else { FeedbackMatches(t, op, s); }
  }

  lemma CommitSimulates(r: SurfaceRec)
    requires r.pending.feedbacks.Some?
    requires r.current.children == r.pending.children || ChildrenSet in r.pending.updates
    ensures FieldsOf(Patched(r.current, r.pending)) == Abstract(r).pending
  {
  }

  lemma RequestSimulates(r: SurfaceRec, q: Request)
    requires r.pending.feedbacks.Some?
    ensures Abstract(r.(pending := Requested(r.pending, q))) == SimpleStep(Abstract(r), Requests(q))
  {
    match q {
      case Attach(_, _) =>
      case SetOpaque(_) =>
      case SetInput(_, _) =>
      case SetScale(_) =>
      case SetTransform(_) =>
      case SetSource(_) =>
      case SetDestination(_) =>
      case RequestFrame(_) =>
      case RequestFeedback(_) =>
    }
  }

  lemma BufferSimulates(r: SurfaceRec, b: Buffer)
    requires r.pending.feedbacks.Some?
    requires r.pending.buffer.Some? ==> BufferSet in r.pending.updates
    requires r.pending.buffer.Some? ==> r.pending.buffer != r.current.buffer
    ensures Abstract(RootRecord(r, LosesBuffer(b))) == SimpleStep(Abstract(r), LosesBuffer(b))
  {
  }

  lemma ChildrenSimulate(r: SurfaceRec, e: Event)
    requires r.pending.feedbacks.Some?
    requires e.GetsChild? || e.LosesChild? || e.ShowsChild?
    requires r.current.children == r.pending.children || ChildrenSet in r.pending.updates
    requires e.ShowsChild? ==> e.child in r.pending.children
    ensures Abstract(RootRecord(r, e)) == SimpleStep(Abstract(r), e)
  {
  }

  lemma RestackSimulates(r: SurfaceRec, e: Event)
    requires r.pending.feedbacks.Some? && e.Restacks?
    requires r.current.children == r.pending.children || ChildrenSet in r.pending.updates
    ensures Abstract(RootRecord(r, e)) == SimpleStep(Abstract(r), e)
  {
    assert Abstract(r).pending.children == r.pending.children;
  }

  /** One event keeps the simulation. */
  lemma EventSimulates(r: SurfaceRec, e: Event)
    requires r.pending.feedbacks.Some?
    requires r.pending.buffer.Some? ==> BufferSet in r.pending.updates
    requires r.pending.buffer.Some? ==> r.pending.buffer != r.current.buffer
    requires r.current.children == r.pending.children || ChildrenSet in r.pending.updates
    requires e.ShowsChild? ==> e.child in r.pending.children
    ensures Abstract(RootRecord(r, e)) == SimpleStep(Abstract(r), e)
  {
    match e {
      case Commits => CommitSimulates(r);
      case Requests(q) => RequestSimulates(r, q);
      case LosesBuffer(b) => BufferSimulates(r, b);
      case NoEvent =>
      case Restacks(_, _, _) => RestackSimulates(r, e);
      case _ => ChildrenSimulate(r, e);
    }
  }

  // ---------------------------------------------------------------- runs

  function ChildrenAfter(children: set<Subsurface>, e: Event): set<Subsurface> {
    match e
    case GetsChild(c) => children + {c}
    case LosesChild(c) => children - {c}
    case _ => children
  }

  lemma AttachedChildren(sh: Shape, u: Subsurface, x: Surface, p: Surface, s: Surface)
    requires ValidShape(sh) && u !in sh.surface && x in sh.role && p in sh.role
    requires sh.role[x] == null && !Under(sh, x, p)
    ensures Children(Attached(sh, u, x, p), s)
            == if p == s then Children(sh, s) + {u} else Children(sh, s)
  {
    assert Attached(sh, u, x, p).parent == sh.parent[u := p];
  }

  lemma DestroySubsurfaceChildren(t: Tree, u: Subsurface, s: Surface)
    requires Valid(t) && u in t.sub
    ensures Children(DoDestroySubsurface(t, u).shape, s)
            == if t.shape.parent[u] == s then Children(t.shape, s) - {u} else Children(t.shape, s)
  {
    assert DoDestroySubsurface(t, u).shape == Forgotten(t.shape, u);
    assert Forgotten(t.shape, u).parent == t.shape.parent - {u};
  }

  lemma DestroySurfaceShape(t: Tree, x: Surface)
    requires Valid(t) && x in t.surf
    ensures DoDestroySurface(t, x).shape == Buried(t.shape, x)
  {
    assert RoleOk(t.shape, x);
    var u := t.shape.role[x];
    if u != null { assert SubsurfaceOk(t.shape, u); }
  }

  lemma DestroySurfaceChildren(t: Tree, x: Surface, s: Surface)
    requires Valid(t) && x in t.surf && s in t.surf && s != x
    ensures
      var u := t.shape.role[x];
      Children(DoDestroySurface(t, x).shape, s)
      == if u != null && u in t.sub && t.shape.parent[u] == s then Children(t.shape, s) - {u}
         else Children(t.shape, s)
  {
    DestroySurfaceShape(t, x);
    assert RoleOk(t.shape, x);
  }

  lemma SetModeShape(t: Tree, u: Subsurface, m: Mode)
    requires Enabled(t, SetMode(u, m))
    ensures DoSetMode(t, u, m).shape == t.shape.(mode := t.shape.mode[u := m])
  {
    FlushIsAtomic(t, u, m);
    if t.shape.mode[u] == m { assert t.shape.mode == t.shape.mode[u := m]; }
  }

  lemma ParentsKept(t: Tree, op: Op)
    requires Enabled(t, op)
    requires !op.CreateSubsurface? && !op.DestroySubsurface? && !op.DestroySurface? && !op.SetMode?
    ensures Step(t, op).shape.parent == t.shape.parent
  {
    hide Valid, DoRequest, DoCommit, DoSetPosition, DoPlace, DoBufferGone, Render, DoLock, DoAnswer, DoOutputGone,
         DoFeedbackGone, DoSetMode, DoCreateSubsurface, DoDestroySubsurface, DoDestroySurface;
  }

  /** The parent links follow the events. */
  ghost predicate ChildrenFollow(t: Tree, op: Op, s: Surface)
    requires Enabled(t, op)
  {
    Children(Step(t, op).shape, s) == ChildrenAfter(Children(t.shape, s), EventAt(t, op, s))
  }

  lemma DestroySurfaceFollows(t: Tree, x: Surface, s: Surface)
    requires Enabled(t, DestroySurface(x)) && s in t.surf && s != x
    ensures ChildrenFollow(t, DestroySurface(x), s)
  {
    hide DoDestroySurface;
    assert RoleOk(t.shape, x);
    DestroySurfaceChildren(t, x, s);
  }

  lemma CreateSubsurfaceFollows(t: Tree, u: Subsurface, x: Surface, p: Surface, s: Surface)
    requires Enabled(t, CreateSubsurface(u, x, p))
    ensures ChildrenFollow(t, CreateSubsurface(u, x, p), s)
  {
    hide DoCreateSubsurface;
    AttachedChildren(t.shape, u, x, p, s);
  }

  lemma DestroySubsurfaceFollows(t: Tree, u: Subsurface, s: Surface)
    requires Enabled(t, DestroySubsurface(u))
    ensures ChildrenFollow(t, DestroySubsurface(u), s)
  {
    hide DoDestroySubsurface;
    DestroySubsurfaceChildren(t, u, s);
  }

  lemma SetModeFollows(t: Tree, u: Subsurface, m: Mode, s: Surface)
    requires Enabled(t, SetMode(u, m))
    ensures ChildrenFollow(t, SetMode(u, m), s)
  {
    hide DoSetMode;
    SetModeShape(t, u, m);
  }

  lemma OthersFollow(t: Tree, op: Op, s: Surface)
    requires Enabled(t, op)
    requires !op.CreateSubsurface? && !op.DestroySubsurface? && !op.DestroySurface? && !op.SetMode?
    ensures ChildrenFollow(t, op, s)
  {
    ParentsKept(t, op);
  }

  lemma ChildrenStep(t: Tree, op: Op, s: Surface)
    requires Enabled(t, op) && s in t.surf && LeavesRoot(op, s)
    ensures ChildrenFollow(t, op, s)
  {
    match op {
      case DestroySurface(x) => DestroySurfaceFollows(t, x, s);
      case CreateSubsurface(u, x, p) => CreateSubsurfaceFollows(t, u, x, p, s);
      case DestroySubsurface(u) => DestroySubsurfaceFollows(t, u, s);
      case SetMode(u, m) => SetModeFollows(t, u, m, s);
      case _ => OthersFollow(t, op, s);
    }
  }

  lemma EventKeepsLists(r: SurfaceRec, e: Event, children: set<Subsurface>)
    requires r.pending.feedbacks.Some? && ListsAgree(r, children)
    requires e.GetsChild? ==> e.child !in children
    requires e.ShowsChild? ==> e.child in children
    ensures ListsAgree(RootRecord(r, e), ChildrenAfter(children, e))
  {
    match e {
      case Commits => CommitSimulates(r);
      case Restacks(_, _, _) => RestackKeepsLists(r, e, children);
      case _ => OtherEventsKeepLists(r, e, children);
    }
  }

  lemma RestackKeepsLists(r: SurfaceRec, e: Event, children: set<Subsurface>)
    requires r.pending.feedbacks.Some? && ListsAgree(r, children) && e.Restacks?
    ensures ListsAgree(RootRecord(r, e), children)
  {
    hide Raise, Lower, NoDup, Without;
    RaiseRestacks(r.pending.children, e.child, e.sibling);
    LowerRestacks(r.pending.children, e.child, e.sibling);
  }

  lemma OtherEventsKeepLists(r: SurfaceRec, e: Event, children: set<Subsurface>)
    requires r.pending.feedbacks.Some? && ListsAgree(r, children) && !e.Commits? && !e.Restacks?
    requires e.GetsChild? ==> e.child !in children
    requires e.ShowsChild? ==> e.child in children
    ensures ListsAgree(RootRecord(r, e), ChildrenAfter(children, e))
  {
    hide Taken;
  }

  lemma SameBuffersSameAbstract(a: SurfaceRec, b: SurfaceRec)
    requires SameBuffers(a, b)
    ensures Abstract(a) == Abstract(b)
    ensures forall c :: ListsAgree(a, c) ==> ListsAgree(b, c)
  {
  }

  lemma EventIsPossible(t: Tree, op: Op, s: Surface)
    requires Enabled(t, op) && s in t.surf
    ensures
      var e := EventAt(t, op, s);
      && (e.GetsChild? ==> e.child !in Children(t.shape, s))
      && (e.ShowsChild? ==> e.child in Children(t.shape, s))
      && (e.Requests? && e.request.Attach? && e.request.buffer.Some? ==>
            e.request.buffer != t.surf[s].current.buffer)
  {
    if op.StateRequest? { assert Enabled(t, StateRequest(op.s, op.request)); }
  }

  lemma EventKeepsBuffers(r: SurfaceRec, e: Event)
    requires r.pending.feedbacks.Some?
    requires r.pending.buffer.Some? ==> r.pending.buffer != r.current.buffer
    requires e.Requests? && e.request.Attach? && e.request.buffer.Some? ==> e.request.buffer != r.current.buffer
    ensures
      var r' := RootRecord(r, e);
      r'.pending.buffer.Some? ==> r'.pending.buffer != r'.current.buffer
  {
  }

  lemma StepKeepsRoot(t: Tree, op: Op, s: Surface)
    requires Enabled(t, op) && StaysRoot(t, op, s) && RootInvariant(t, s)
    ensures RootInvariant(Step(t, op), s)
    ensures Abstract(Step(t, op).surf[s]) == SimpleStep(Abstract(t.surf[s]), EventAt(t, op, s))
  {
    SourceIsOk(t, s, FromPending);
    StepOnRoot(t, op, s);
    var rec, e, r := t.surf[s], EventAt(t, op, s), Step(t, op);
    EventIsPossible(t, op, s);
    StaysRootMeans(t, op, s);
    ChildrenStep(t, op, s);
    StepFromRecord(rec, r.surf[s], e, Children(t.shape, s));
  }

  lemma StepFromRecord(a: SurfaceRec, b: SurfaceRec, e: Event, children: set<Subsurface>)
    requires a.pending.feedbacks.Some? && SameBuffers(RootRecord(a, e), b)
    requires ListsAgree(a, children)
    requires a.pending.buffer.Some? ==> BufferSet in a.pending.updates && a.pending.buffer != a.current.buffer
    requires e.GetsChild? ==> e.child !in children
    requires e.ShowsChild? ==> e.child in children
    requires e.Requests? && e.request.Attach? && e.request.buffer.Some? ==> e.request.buffer != a.current.buffer
    ensures ListsAgree(b, ChildrenAfter(children, e))
    ensures b.pending.buffer.Some? ==> b.pending.buffer != b.current.buffer
    ensures Abstract(b) == SimpleStep(Abstract(a), e)
  {
    EventKeepsLists(a, e, children);
    EventKeepsBuffers(a, e);
    EventSimulates(a, e);
    SameBuffersSameAbstract(RootRecord(a, e), b);
  }

  /** The surface is there and without a role all through the run. */
  ghost predicate StaysRootThrough(t: Tree, ops: seq<Op>, s: Surface)
    requires Valid(t) && EnabledRun(t, ops)
    decreases |ops|
  {
    && s in t.surf && t.shape.role[s] == null
    && (ops != [] ==> StaysRootThrough(Step(t, ops[0]), ops[1..], s))
  }

  ghost function EventsAt(t: Tree, ops: seq<Op>, s: Surface): seq<Event>
    requires Valid(t) && EnabledRun(t, ops)
    decreases |ops|
  {
    if ops == [] then [] else [EventAt(t, ops[0], s)] + EventsAt(Step(t, ops[0]), ops[1..], s)
  }

  function SimpleRun(m: Simple, events: seq<Event>): Simple
    decreases |events|
  {
    if events == [] then m else SimpleRun(SimpleStep(m, events[0]), events[1..])
  }

  /** Over any run in which the surface has no role, the flag-gated server and the simple server show the
      same current state, and the children lists stay in agreement. */
  lemma {:induction false} RootRefinesSimple(t: Tree, ops: seq<Op>, s: Surface)
    requires Valid(t) && EnabledRun(t, ops) && StaysRootThrough(t, ops, s) && RootInvariant(t, s)
    ensures s in Run(t, ops).surf && RootInvariant(Run(t, ops), s)
    ensures Abstract(Run(t, ops).surf[s]) == SimpleRun(Abstract(t.surf[s]), EventsAt(t, ops, s))
    decreases |ops|
  {
    if ops != [] {
      StepKeepsRoot(t, ops[0], s);
      var events := EventsAt(t, ops, s);
      assert events[0] == EventAt(t, ops[0], s) && events[1..] == EventsAt(Step(t, ops[0]), ops[1..], s);
      RootRefinesSimple(Step(t, ops[0]), ops[1..], s);
    }
  }

  /** A new surface starts in the invariant, whatever the rest of the tree. */
  lemma NewSurfaceIsRoot(t: Tree, s: Surface)
    requires Valid(t) && s !in t.surf
    ensures
      var r := DoCreateSurface(t, s);
      && RootInvariant(r, s)
      && Abstract(r.surf[s]) == Simple(FieldsOf(Blank([])), FieldsOf(Blank([])))
  {
    forall u | u in t.sub ensures t.shape.parent[u] != s { assert SubsurfaceOk(t.shape, u); }
  }

  /** From its creation on, a surface that is never given a role shows what the simple server shows. */
  lemma NeverASubsurface(t: Tree, s: Surface, ops: seq<Op>)
    requires Enabled(t, CreateSurface(s)) && EnabledRun(DoCreateSurface(t, s), ops)
    requires StaysRootThrough(DoCreateSurface(t, s), ops, s)
    ensures
      var start, blank := DoCreateSurface(t, s), FieldsOf(Blank([]));
      var end := Run(start, ops);
      && s in end.surf
      && ListsAgree(end.surf[s], Children(end.shape, s))
      && FieldsOf(end.surf[s].current) == SimpleRun(Simple(blank, blank), EventsAt(start, ops, s)).current
  {
    NewSurfaceIsRoot(t, s);
    RootRefinesSimple(DoCreateSurface(t, s), ops, s);
  }
}
