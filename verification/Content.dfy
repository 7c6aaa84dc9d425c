/** What a surface shows: the requests on it go through the pending and, for a subsurface, the cached
    state as one list of changes, and the flags of the current state say what an update changed. */
module Content {
  import opened Seqs
  import opened SurfaceTree
  import opened TreeWalk
  import opened AtomicCommit

  // ---------------------------------------------------------------- patches

  /** What is shown of a surface, its children aside. */
  datatype Look = Look(
    buffer: Option<Buffer>,
    offset: Point,
    opaqueRegion: Region,
    input: Region,
    inputIsInfinite: bool,
    scale: int,
    sourceRect: Rect,
    destination: Size)

  function LookOf(st: SurfaceState): Look {
    Look(st.buffer, st.offset, st.opaqueRegion, st.input, st.inputIsInfinite, st.scale, st.sourceRect, st.destination)
  }

  /** A buffer, or none, and where it goes relative to the last one. */
  datatype Attachment = Attachment(buffer: Option<Buffer>, offset: Point)

  datatype InputRegion = InputRegion(region: Region, infinite: bool)

  /** Changes that were asked for: for each property the last value, if there was one. */
  datatype Patch = Patch(
    attachment: Option<Attachment>,
    opaqueRegion: Option<Region>,
    input: Option<InputRegion>,
    scale: Option<int>,
    sourceRect: Option<Rect>,
    destination: Option<Size>)

  const NO_PATCH := Patch(None, None, None, None, None, None)

  function PatchOf(st: SurfaceState): Patch {
    Patch(
      if BufferSet in st.updates then Some(Attachment(st.buffer, st.offset)) else None,
      if OpaqueSet in st.updates then Some(st.opaqueRegion) else None,
      if InputSet in st.updates then Some(InputRegion(st.input, st.inputIsInfinite)) else None,
      if ScaleSet in st.updates then Some(st.scale) else None,
      if SourceSet in st.updates then Some(st.sourceRect) else None,
      if st.destinationIsSet then Some(st.destination) else None)
  }

  function Or<T>(change: Option<T>, before: T): T {
    if change.Some? then change.value else before
  }

  /** The patch applied: every property it names is replaced. An offset goes with a buffer only. */
  function Overlay(l: Look, p: Patch): Look {
    Look(
      if p.attachment.Some? then p.attachment.value.buffer else l.buffer,
      if p.attachment.Some? && p.attachment.value.buffer.Some? then p.attachment.value.offset else l.offset,
      Or(p.opaqueRegion, l.opaqueRegion),
      Or(p.input, InputRegion(l.input, l.inputIsInfinite)).region,
      Or(p.input, InputRegion(l.input, l.inputIsInfinite)).infinite,
      Or(p.scale, l.scale),
      Or(p.sourceRect, l.sourceRect),
      Or(p.destination, l.destination))
  }

  /** One more request; the last value counts. */
  function Recorded(p: Patch, r: Request): Patch {
    match r
    case Attach(b, o) => p.(attachment := Some(Attachment(b, o)))
    case SetOpaque(g) => p.(opaqueRegion := Some(g))
    case SetInput(g, inf) => p.(input := Some(InputRegion(g, inf)))
    case SetScale(n) => p.(scale := Some(n))
    case SetSource(g) => p.(sourceRect := Some(g))
    case SetDestination(z) => p.(destination := Some(z))
    case _ => p
  }

  lemma PatchedLooks(cur: SurfaceState, src: SurfaceState)
    ensures LookOf(Patched(cur, src)) == Overlay(LookOf(cur), PatchOf(src))
  {
  }

  lemma RequestIsRecorded(p: SurfaceState, r: Request)
    requires p.feedbacks.Some?
    ensures PatchOf(Requested(p, r)) == Recorded(PatchOf(p), r)
  {
  }

  // ---------------------------------------------------------------- the flags of what an update took

  /** No state that an update can take carries the flags which the update itself raises. */
  lemma SourcesCarryNoReport(t: Tree, s: Surface, from: Source)
    requires Valid(t) && s in t.surf && (from == FromCached ==> t.shape.role[s] != null)
    ensures SourceState(t, s, from).updates !! {Mapped, Resized, FrameSet, TransformSet}
  {
    SourceIsOk(t, s, from);
  }

  /** The flags that only repeat what was asked for. */
  const ASKED_FLAGS := {BufferSet, OpaqueSet, InputSet, ScaleSet, SourceSet}

  /** What the current state of a surface reports after an update, compared with the one before. */
  ghost predicate Reports(before: SurfaceState, src: SurfaceState, after: SurfaceState) {
    && (Mapped in after.updates <==> before.buffer.Some? != after.buffer.Some?)
    && (FrameSet in after.updates <==> after.callbacks != [])
    && after.updates * ASKED_FLAGS == src.updates * ASKED_FLAGS
    && TransformSet !in after.updates
    && after.offset == (if BufferSet in src.updates && src.buffer.Some? then src.offset else before.offset)
    && after.callbacks == before.callbacks + src.callbacks
  }

  lemma PatchedReports(cur: SurfaceState, src: SurfaceState)
    requires src.updates !! {Mapped, Resized, FrameSet, TransformSet}
    ensures Reports(cur, src, Patched(cur, src))
  {
  }

  lemma MarkedReports(before: SurfaceState, src: SurfaceState, after: SurfaceRec, marked: bool)
    requires Reports(before, src, after.current)
    ensures Reports(before, src, MarkIf(after, marked).current)
  {
  }

  /** Every surface that takes a state in an update, whatever the others take, reports exactly what the
      update changed: the mapped flag is up if and only if it got or lost its content. */
  lemma TakenReports(t: Tree, r: Tree, s: Surface, from: Source, x: Surface)
    requires Updated(t, r, s, from) && x in t.surf && Takes(r, s, x)
    ensures x != s ==> t.shape.role[x] != null
    ensures Reports(t.surf[x].current, TakenState(t, s, from, x), r.surf[x].current)
  {
    hide Patched, Reports;
    assert RoleOk(t.shape, x);
    var src := TakenState(t, s, from, x);
    SourcesCarryNoReport(t, x, if x == s then from else FromCached);
    PatchedReports(t.surf[x].current, src);
    assert r.surf[x] == Expected(t, r, s, from, x);
    var taken := Taken(t.surf[x], src);
    MarkedReports(t.surf[x].current, src, taken, AboveUnmap(t, r, s, from, x));
    MarkedReports(t.surf[x].current, src, taken.(pending := Blank(taken.current.children)),
                  AboveUnmap(t, r, s, from, x));
  }

  lemma CommitReports(t: Tree, s: Surface, x: Surface)
    requires Valid(t) && s in t.surf && !SyncedRole(t.shape, s) && x in t.surf && Takes(DoCommit(t, s), s, x)
    ensures x != s ==> t.shape.role[x] != null
    ensures Reports(t.surf[x].current, TakenState(t, s, FromPending, x), DoCommit(t, s).surf[x].current)
  {
    hide DoCommit, Reports;
    CommitIsAtomic(t, s);
    TakenReports(t, DoCommit(t, s), s, FromPending, x);
  }

  lemma ShownKeepsContent(t: Tree, u: Subsurface, x: Surface)
    requires Valid(t) && u in t.sub && t.shape.parent[u] != null && x in t.surf
    ensures
      var r := Shown(t, u);
      && x in r.surf && LookOf(r.surf[x].current) == LookOf(t.surf[x].current)
      && r.surf[x].current.callbacks == t.surf[x].current.callbacks
      && r.surf[x].pending == t.surf[x].pending && r.sub == t.sub && r.shape.role == t.shape.role
  {
    assert SubsurfaceOk(t.shape, u);
  }

  /** The same for the flush of a mode change, compared with the states before it. */
  lemma FlushReports(t: Tree, u: Subsurface, m: Mode, x: Surface)
    requires Enabled(t, SetMode(u, m)) && Flushes(t, u, m) && x in t.surf && t.shape.surface[u] != null
    requires Takes(DoSetMode(t, u, m), t.shape.surface[u], x)
    ensures t.shape.role[x] != null
    ensures Reports(t.surf[x].current, CachedOf(t, x), DoSetMode(t, u, m).surf[x].current)
  {
    FlushIsAtomic(t, u, m);
    ShownKeepsContent(t, u, x);
    assert SubsurfaceOk(t.shape, u) && RoleOk(t.shape, x);
    hide DoSetMode, Takes, Shown, Flushes;
    TakenReports(Shown(t, u), DoSetMode(t, u, m), t.shape.surface[u], FromCached, x);
  }

  // ---------------------------------------------------------------- one surface as a pipeline

  /** What is shown, what waits in the cache for a parent, and what was asked for since the last commit. */
  datatype Stage = Stage(shown: Look, cached: Patch, pending: Patch)

  function CachedPatch(t: Tree, x: Surface): Patch
    requires Valid(t) && x in t.surf
  {
    assert RoleOk(t.shape, x);
    if t.shape.role[x] == null then NO_PATCH else PatchOf(t.sub[t.shape.role[x]].cached)
  }

  function StageOf(t: Tree, x: Surface): Stage
    requires Valid(t) && x in t.surf
  {
    Stage(LookOf(t.surf[x].current), CachedPatch(t, x), PatchOf(t.surf[x].pending))
  }

  datatype Event = Asks(request: Request) | Parks | Shows | Applies | LosesBuffer(buffer: Buffer) | LosesRole | Nothing

  predicate Attaches(p: Patch, b: Buffer) {
    p.attachment.Some? && p.attachment.value.buffer == Some(b)
  }

  function Detached(p: Patch): Patch
    requires p.attachment.Some?
  {
    p.(attachment := Some(p.attachment.value.(buffer := None)))
  }

  /** The pipeline. Parking replaces the cache: what was parked before and not applied is gone. */
  function Advance(g: Stage, e: Event): Stage {
    match e
    case Asks(r) => g.(pending := Recorded(g.pending, r))
    case Parks => g.(cached := g.pending, pending := NO_PATCH)
    case Shows => g.(shown := Overlay(g.shown, g.pending), pending := NO_PATCH)
    case Applies => g.(shown := Overlay(g.shown, g.cached), cached := NO_PATCH)
    case LosesBuffer(b) =>
      if Attaches(g.pending, b) then g.(pending := Detached(g.pending))
      else if g.shown.buffer == Some(b) then g.(shown := g.shown.(buffer := None))
      else if Attaches(g.cached, b) then g.(cached := Detached(g.cached))
      else g
    case LosesRole => g.(cached := NO_PATCH)
    case Nothing => g
  }

  /** What an operation is to `x`, told before it. */
  function EventAt(t: Tree, op: Op, x: Surface): Event
    requires Enabled(t, op) && x in t.surf
  {
    match op
    case StateRequest(s, r) => if s == x then Asks(r) else Nothing
    case CommitSurface(s) =>
      if SyncedRole(t.shape, s) then (if s == x then Parks else Nothing)
      else if s == x then Shows
      else if WillTake(t, s, FromPending, x) then Applies
      else Nothing
    case SetMode(u, m) => if FlushReaches(t, u, m, x) then Applies else Nothing
    case BufferGone(s, b) => if s == x then LosesBuffer(b) else Nothing
    case DestroySubsurface(u) => if t.shape.surface[u] == x then LosesRole else Nothing
    case _ => Nothing
  }

  /** The mode change flushes caches, that of `x` among them. */
  predicate FlushReaches(t: Tree, u: Subsurface, m: Mode, x: Surface)
    requires Valid(t) && u in t.sub && x in t.surf
  {
    assert SubsurfaceOk(t.shape, u);
    Flushes(t, u, m) && WillTake(Shown(t, u), t.shape.surface[u], FromCached, x)
  }

  /** Nothing of the content of `x` has changed. */
  ghost predicate Same(t: Tree, r: Tree, x: Surface) {
    Valid(t) && Valid(r) && x in t.surf && x in r.surf && StageOf(r, x) == StageOf(t, x)
  }

  lemma BlankIsNoPatch(children: seq<Subsurface>)
    ensures PatchOf(Blank(children)) == NO_PATCH
  {
  }

  lemma MarkKeepsLook(r: SurfaceRec, marked: bool)
    ensures LookOf(MarkIf(r, marked).current) == LookOf(r.current) && MarkIf(r, marked).pending == r.pending
  {
  }

  lemma UpdateStage(t: Tree, r: Tree, s: Surface, from: Source, x: Surface)
    requires Updated(t, r, s, from) && x in t.surf
    ensures StageOf(r, x) == Advance(StageOf(t, x),
      if !WillTake(t, s, from, x) then Nothing else if x == s && from == FromPending then Shows else Applies)
  {
    hide Patched, Overlay, LookOf;
    ReachIsKnownBefore(t, r, s, from, x);
    assert r.surf[x] == Expected(t, r, s, from, x);
    assert RoleOk(t.shape, x);
    var u := t.shape.role[x];
    if u != null { assert r.sub[u] == ExpectedSub(t, r, s, from, u) && SubsurfaceOk(t.shape, u); }
    BlankIsNoPatch(r.surf[x].current.children);
    var marked := AboveUnmap(t, r, s, from, x);
    if Takes(r, s, x) {
      var src := TakenState(t, s, from, x);
      PatchedLooks(t.surf[x].current, src);
      var taken := Taken(t.surf[x], src);
      BlankIsNoPatch(taken.current.children);
      MarkKeepsLook(taken, marked);
      MarkKeepsLook(taken.(pending := Blank(taken.current.children)), marked);
    } else {
      MarkKeepsLook(t.surf[x], marked);
    }
  }

  lemma ParkStage(t: Tree, s: Surface, x: Surface)
    requires Valid(t) && s in t.surf && SyncedRole(t.shape, s) && x in t.surf
    ensures StageOf(DoCommit(t, s), x) == Advance(StageOf(t, x), if s == x then Parks else Nothing)
  {
    hide LookOf;
    assert RoleOk(t.shape, s) && RoleOk(t.shape, x);
    BlankIsNoPatch(t.surf[s].pending.children);
  }

  /** A parked commit moves the pending state whole, its children list and its feedbacks included. */
  lemma ParkMovesWholeState(t: Tree, s: Surface)
    requires Valid(t) && s in t.surf && SyncedRole(t.shape, s)
    ensures
      var r, u := DoCommit(t, s), t.shape.role[s];
      && u in r.sub && r.sub[u].cached == t.surf[s].pending
      && r.surf[s].pending == Blank(t.surf[s].pending.children) && r.surf[s].current == t.surf[s].current
      && forall x :: x in t.surf && x != s ==> r.surf[x] == t.surf[x]
  {
    assert RoleOk(t.shape, s);
  }

  lemma CommitStage(t: Tree, s: Surface, x: Surface)
    requires Valid(t) && s in t.surf && x in t.surf
    ensures StageOf(DoCommit(t, s), x) == Advance(StageOf(t, x), EventAt(t, CommitSurface(s), x))
  {
    hide StageOf, Advance, DoCommit;
    if SyncedRole(t.shape, s) {
      ParkStage(t, s, x);
    } else {
      CommitIsAtomic(t, s);
      UpdateStage(t, DoCommit(t, s), s, FromPending, x);
    }
  }

  lemma ModeSame(t: Tree, u: Subsurface, m: Mode, x: Surface)
    requires Valid(t) && u in t.sub && x in t.surf
    ensures Same(t, PutMode(t, u, m), x)
  {
    assert RoleOk(t.shape, x);
  }

  lemma SetModeStage(t: Tree, u: Subsurface, m: Mode, x: Surface)
    requires Enabled(t, SetMode(u, m)) && x in t.surf
    ensures x in DoSetMode(t, u, m).surf
    ensures StageOf(DoSetMode(t, u, m), x) == Advance(StageOf(t, x), EventAt(t, SetMode(u, m), x))
  {
    FlushIsAtomic(t, u, m);
    ModeSame(t, u, m, x);
    assert SubsurfaceOk(t.shape, u) && RoleOk(t.shape, x);
    if Flushes(t, u, m) {
      ShownKeepsContent(t, u, x);
      hide DoSetMode, Shown, Flushes, Advance;
      UpdateStage(Shown(t, u), DoSetMode(t, u, m), t.shape.surface[u], FromCached, x);
    }
  }

  lemma RequestStage(t: Tree, s: Surface, r: Request, x: Surface)
    requires Valid(t) && s in t.surf && x in t.surf
    ensures StageOf(DoRequest(t, s, r), x) == Advance(StageOf(t, x), if s == x then Asks(r) else Nothing)
  {
    hide SurfaceOk, CacheOk, SubsurfaceOk, Requested, Recorded;
    SourceIsOk(t, s, FromPending);
    assert RoleOk(t.shape, x);
    hide Valid;
    assert t.surf[s].pending.feedbacks.Some? by { SourceHasSlot(t, s); }
    RequestIsRecorded(t.surf[s].pending, r);
  }

  lemma SourceHasSlot(t: Tree, s: Surface)
    requires Valid(t) && s in t.surf
    ensures t.surf[s].pending.feedbacks.Some?
  {
    SourceIsOk(t, s, FromPending);
  }

  lemma BufferGoneStage(t: Tree, s: Surface, b: Buffer, x: Surface)
    requires Valid(t) && s in t.surf && x in t.surf
    ensures StageOf(DoBufferGone(t, s, b), x) == Advance(StageOf(t, x), if s == x then LosesBuffer(b) else Nothing)
  {
    if s == x { BufferGoneHere(t, s, b); } else { BufferGoneElsewhere(t, s, b, x); }
  }

  lemma BufferGoneElsewhere(t: Tree, s: Surface, b: Buffer, x: Surface)
    requires Valid(t) && s in t.surf && x in t.surf && x != s
    ensures StageOf(DoBufferGone(t, s, b), x) == StageOf(t, x)
  {
    hide SurfaceOk, CacheOk, LookOf, PatchOf;
    assert RoleOk(t.shape, s) && RoleOk(t.shape, x);
  }

  lemma BufferGoneHere(t: Tree, s: Surface, b: Buffer)
    requires Valid(t) && s in t.surf
    ensures StageOf(DoBufferGone(t, s, b), s) == Advance(StageOf(t, s), LosesBuffer(b))
  {
    BuffersAreFlagged(t, s);
    hide SurfaceOk, CacheOk, SubsurfaceOk;
    assert RoleOk(t.shape, s);
  }

  lemma BuffersAreFlagged(t: Tree, s: Surface)
    requires Valid(t) && s in t.surf
    ensures t.surf[s].pending.buffer.Some? ==> BufferSet in t.surf[s].pending.updates
    ensures t.shape.role[s] != null && CachedOf(t, s).buffer.Some? ==> BufferSet in CachedOf(t, s).updates
  {
    SourceIsOk(t, s, FromPending);
    if t.shape.role[s] != null { SourceIsOk(t, s, FromCached); }
  }

  lemma PlaceSame(t: Tree, u: Subsurface, sibling: Surface, dir: Direction, x: Surface)
    requires Enabled(t, Place(u, sibling, dir)) && x in t.surf
    ensures Same(t, DoPlace(t, u, sibling, dir), x)
  {
    assert SubsurfaceOk(t.shape, u);
  }

  lemma PositionSame(t: Tree, u: Subsurface, pos: Point, x: Surface)
    requires Valid(t) && u in t.sub && x in t.surf
    ensures Same(t, DoSetPosition(t, u, pos), x)
  {
    assert RoleOk(t.shape, x);
  }

  lemma LockSame(t: Tree, s: Surface, output: nat, x: Surface)
    requires Valid(t) && s in t.surf && x in t.surf
    ensures Same(t, DoLock(t, s, output), x)
  {
    SourceIsOk(t, s, FromPending);
  }

  lemma AnswerSame(t: Tree, s: Surface, id: nat, presented: bool, x: Surface)
    requires Valid(t) && s in t.surf && x in t.surf && id in t.surf[s].waiting
    ensures Same(t, DoAnswer(t, s, id, presented), x)
  {
    assert RoleOk(t.shape, x);
  }

  lemma OutputGoneSame(t: Tree, s: Surface, id: nat, x: Surface)
    requires Enabled(t, OutputGone(s, id)) && x in t.surf
    ensures Same(t, DoOutputGone(t, s, id), x)
  {
    assert RoleOk(t.shape, x);
  }

  lemma FeedbackGoneSame(t: Tree, s: Surface, place: Place, fb: nat, x: Surface)
    requires Valid(t) && s in t.surf && x in t.surf && fb in Held(t, s, place)
    ensures Same(t, DoFeedbackGone(t, s, place, fb), x)
  {
    hide Dropped;
    SourceIsOk(t, s, FromPending);
    assert RoleOk(t.shape, s) && RoleOk(t.shape, x);
  }

  lemma DrainSame(t: Tree, s: Surface, x: Surface)
    requires Valid(t) && s in t.surf && x in t.surf && SurfaceOk(t.shape, s, Drained(t.surf[s]))
    ensures Same(t, PutSurface(t, s, Drained(t.surf[s])), x)
  {
    assert RoleOk(t.shape, x);
  }

  lemma RenderSame(t: Tree, s: Surface, x: Surface)
    requires Valid(t) && s in t.surf && x in t.surf
    ensures Same(t, Render(t, s), x)
    decreases t.shape.bound - (if s in t.shape.depth then t.shape.depth[s] else 0), 1, 0
  {
    hide StageOf;
    SourceIsOk(t, s, FromPending);
    DrainSame(t, s, x);
    RenderAllSame(PutSurface(t, s, Drained(t.surf[s])), s, t.surf[s].current.children, x);
  }

  lemma {:induction false} RenderAllSame(t: Tree, p: Surface, list: seq<Subsurface>, x: Surface)
    requires Valid(t) && p in t.surf && ChildrenOk(t.shape, p, list) && x in t.surf
    ensures Same(t, RenderAll(t, p, list), x)
    decreases t.shape.bound - (if p in t.shape.depth then t.shape.depth[p] else 0), 0, |list|
  {
    hide StageOf;
    if list != [] {
      assert SubsurfaceOk(t.shape, list[0]);
      RenderSame(t, t.shape.surface[list[0]], x);
      RenderAllSame(Render(t, t.shape.surface[list[0]]), p, list[1..], x);
    }
  }

  lemma CreateSurfaceSame(t: Tree, s: Surface, x: Surface)
    requires Valid(t) && s !in t.surf && x in t.surf
    ensures Same(t, DoCreateSurface(t, s), x)
  {
    assert RoleOk(t.shape, x);
  }

  lemma JoinSame(t: Tree, u: Subsurface, s: Surface, p: Surface, x: Surface)
    requires Enabled(t, CreateSubsurface(u, s, p)) && x in t.surf
    ensures Same(t, Joined(t, u, s, p), x)
  {
    BlankIsNoPatch([]);
    assert RoleOk(t.shape, x);
  }

  lemma AddChildSame(t: Tree, p: Surface, u: Subsurface, x: Surface)
    requires Valid(t) && p in t.surf && u in t.sub && x in t.surf
    requires t.shape.parent[u] == p && t.shape.surface[u] != null
    requires u !in t.surf[p].pending.children && u !in CachedChildren(t, p)
    ensures Same(t, ChildAdded(t, p, u), x)
  {
    assert RoleOk(t.shape, x) && RoleOk(t.shape, p);
  }

  lemma CreateSubsurfaceSame(t: Tree, u: Subsurface, s: Surface, p: Surface, x: Surface)
    requires Enabled(t, CreateSubsurface(u, s, p)) && x in t.surf
    ensures Same(t, DoCreateSubsurface(t, u, s, p), x)
  {
    hide StageOf, ChildAdded, Joined, Attached;
    JoinSame(t, u, s, p, x);
    JoinedIsReady(t, u, s, p);
    AddChildSame(Joined(t, u, s, p), p, u, x);
  }

  lemma DetachSame(t: Tree, u: Subsurface, x: Surface)
    requires Valid(t) && u in t.sub && x in t.surf
    ensures Same(t, Detach(t, u), x) && Detach(t, u).sub.Keys == t.sub.Keys
  {
    hide Without, NowhereListed, SurfaceOk, CacheOk;
    assert SubsurfaceOk(t.shape, u) && RoleOk(t.shape, x);
    if t.shape.parent[u] != null { assert RoleOk(t.shape, t.shape.parent[u]); }
  }

  lemma BurySame(d: Tree, s: Surface, x: Surface)
    requires Valid(d) && s in d.surf && x in d.surf && x != s
    requires d.shape.role[s] != null ==> NowhereListed(d, d.shape.role[s])
    ensures Same(d, Bury(d, s), x)
  {
    assert RoleOk(d.shape, x);
  }

  lemma DestroySurfaceSame(t: Tree, s: Surface, x: Surface)
    requires Valid(t) && s in t.surf && x in t.surf && x != s
    ensures Same(t, DoDestroySurface(t, s), x)
  {
    hide StageOf, Bury, Detach, NowhereListed;
    assert RoleOk(t.shape, s);
    var u := t.shape.role[s];
    if u == null {
      BurySame(t, s, x);
    } else {
      DetachSame(t, u, x);
      DetachSame(t, u, s);
      BurySame(Detach(t, u), s, x);
    }
  }

  lemma ForgetStage(d: Tree, u: Subsurface, x: Surface)
    requires Valid(d) && u in d.sub && NowhereListed(d, u) && x in d.surf
    ensures
      var r := Forget(DropCache(d, u), u);
      x in r.surf && StageOf(r, x) == Advance(StageOf(d, x), if d.shape.surface[u] == x then LosesRole else Nothing)
  {
    hide DropCache, Forget, NowhereListed, LookOf, PatchOf, SurfaceOk, CacheOk;
    DropCacheIs(d, u);
    ForgetIs(DropCache(d, u), u);
    assert SubsurfaceOk(d.shape, u) && RoleOk(d.shape, x);
  }

  lemma DestroySubsurfaceStage(t: Tree, u: Subsurface, x: Surface)
    requires Valid(t) && u in t.sub && x in t.surf
    ensures
      var r := DoDestroySubsurface(t, u);
      x in r.surf && StageOf(r, x) == Advance(StageOf(t, x), if t.shape.surface[u] == x then LosesRole else Nothing)
  {
    hide StageOf, Advance, Detach, DropCache, Forget, NowhereListed;
    DetachSame(t, u, x);
    ForgetStage(Detach(t, u), u, x);
  }

  // ---------------------------------------------------------------- every operation

  /** The operation is to `x` the event that it was said to be. */
  ghost predicate Advances(t: Tree, op: Op, x: Surface)
    requires Enabled(t, op) && x in t.surf
  {
    x in Step(t, op).surf && StageOf(Step(t, op), x) == Advance(StageOf(t, x), EventAt(t, op, x))
  }

  lemma SameAdvances(t: Tree, op: Op, x: Surface)
    requires Enabled(t, op) && x in t.surf && Same(t, Step(t, op), x) && EventAt(t, op, x) == Nothing
    ensures Advances(t, op, x)
  {
    hide Step, StageOf, EventAt, Valid, Enabled;
  }

  lemma ContentAdvances(t: Tree, op: Op, x: Surface)
    requires Enabled(t, op) && x in t.surf
    requires op.StateRequest? || op.CommitSurface? || op.SetMode? || op.BufferGone? || op.DestroySubsurface?
    ensures Advances(t, op, x)
  {
    hide StageOf, Advance, DoCreateSurface, DoCreateSubsurface, DoDestroySurface, DoDestroySubsurface, DoRequest,
         DoCommit, DoSetMode, DoSetPosition, DoPlace, DoBufferGone, Render, DoLock, DoAnswer, DoOutputGone,
         DoFeedbackGone, Under, FlushReaches;
    match op {
      case StateRequest(s, r) => RequestStage(t, s, r, x);
      case CommitSurface(s) => CommitStage(t, s, x);
      case SetMode(u, m) => SetModeStage(t, u, m, x);
      case BufferGone(s, b) => BufferGoneStage(t, s, b, x);
      case DestroySubsurface(u) => DestroySubsurfaceStage(t, u, x);
    }
  }

  lemma ShapeAdvances(t: Tree, op: Op, x: Surface)
    requires Enabled(t, op) && x in t.surf && op != DestroySurface(x)
    requires op.CreateSurface? || op.CreateSubsurface? || op.DestroySurface? || op.SetPosition? || op.Place?
    ensures Advances(t, op, x)
  {
    hide StageOf, Advance, DoCreateSurface, DoCreateSubsurface, DoDestroySurface, DoDestroySubsurface, DoRequest,
         DoCommit, DoSetMode, DoSetPosition, DoPlace, DoBufferGone, Render, DoLock, DoAnswer, DoOutputGone,
         DoFeedbackGone, Under, FlushReaches;
    match op {
      case CreateSurface(s) => CreateSurfaceSame(t, s, x);
      case CreateSubsurface(u, s, p) => CreateSubsurfaceSame(t, u, s, p, x);
      case DestroySurface(s) => DestroySurfaceSame(t, s, x);
      case SetPosition(u, pos) => PositionSame(t, u, pos, x);
      case Place(u, sibling, dir) => PlaceSame(t, u, sibling, dir, x);
    }
    SameAdvances(t, op, x);
  }

  lemma AnswerAdvances(t: Tree, op: Op, x: Surface)
    requires Enabled(t, op) && x in t.surf
    requires op.FrameRendered? || op.LockPresentation? || op.AnswerPresentation? || op.OutputGone? || op.FeedbackGone?
    ensures Advances(t, op, x)
  {
    hide StageOf, Advance, DoCreateSurface, DoCreateSubsurface, DoDestroySurface, DoDestroySubsurface, DoRequest,
         DoCommit, DoSetMode, DoSetPosition, DoPlace, DoBufferGone, Render, DoLock, DoAnswer, DoOutputGone,
         DoFeedbackGone, Under, FlushReaches;
    match op {
      case FrameRendered(s) => RenderSame(t, s, x);
      case LockPresentation(s, output) => LockSame(t, s, output, x);
      case AnswerPresentation(s, id, presented) => AnswerSame(t, s, id, presented, x);
      case OutputGone(s, id) => OutputGoneSame(t, s, id, x);
      case FeedbackGone(s, place, fb) => FeedbackGoneSame(t, s, place, fb, x);
    }
    SameAdvances(t, op, x);
  }

  /** Every operation on the tree is one step of the pipeline of every surface, whatever its role and
      wherever the operation happens. */
  lemma StepAdvances(t: Tree, op: Op, x: Surface)
    requires Enabled(t, op) && x in t.surf && op != DestroySurface(x)
    ensures Advances(t, op, x)
  {
    if op.StateRequest? || op.CommitSurface? || op.SetMode? || op.BufferGone? || op.DestroySubsurface? {
      ContentAdvances(t, op, x);
    } else if op.CreateSurface? || op.CreateSubsurface? || op.DestroySurface? || op.SetPosition? || op.Place? {
      ShapeAdvances(t, op, x);
    } else {
      AnswerAdvances(t, op, x);
    }
  }

  // ---------------------------------------------------------------- runs

  /** What a run is to `x`, step by step. */
  function EventsOf(t: Tree, ops: seq<Op>, x: Surface): seq<Event>
    requires Valid(t) && EnabledRun(t, ops) && x in t.surf && DestroySurface(x) !in ops
    decreases |ops|
  {
    if ops == [] then []
    else
      StepAdvances(t, ops[0], x);
      [EventAt(t, ops[0], x)] + EventsOf(Step(t, ops[0]), ops[1..], x)
  }

  function AdvanceAll(g: Stage, events: seq<Event>): Stage
    decreases |events|
  {
    if events == [] then g else AdvanceAll(Advance(g, events[0]), events[1..])
  }

  /** Over every run each surface, root or not, shows what its own pipeline shows. */
  lemma {:induction false} EverySurfaceIsAPipeline(t: Tree, ops: seq<Op>, x: Surface)
    requires Valid(t) && EnabledRun(t, ops) && x in t.surf && DestroySurface(x) !in ops
    ensures x in Run(t, ops).surf
    ensures StageOf(Run(t, ops), x) == AdvanceAll(StageOf(t, x), EventsOf(t, ops, x))
    decreases |ops|
  {
    if ops != [] {
      StepAdvances(t, ops[0], x);
      hide Step, Enabled, StageOf, EventAt, Valid, Advance;
      EverySurfaceIsAPipeline(Step(t, ops[0]), ops[1..], x);
      var events := EventsOf(t, ops, x);
      assert events[0] == EventAt(t, ops[0], x) && events[1..] == EventsOf(Step(t, ops[0]), ops[1..], x);
    }
  }

  // ---------------------------------------------------------------- buffers

  /** No buffer waits or shows in two places. */
  ghost predicate HeldOnce(g: Stage) {
    forall b :: Attaches(g.pending, b) || Attaches(g.cached, b) ==>
      && (Attaches(g.pending, b) ==> g.shown.buffer != Some(b) && !Attaches(g.cached, b))
      && (Attaches(g.cached, b) ==> g.shown.buffer != Some(b))
  }

  predicate Holds(g: Stage, b: Buffer) {
    Attaches(g.pending, b) || Attaches(g.cached, b) || g.shown.buffer == Some(b)
  }

  lemma AdvanceHoldsOnce(g: Stage, e: Event)
    requires HeldOnce(g)
    requires e.Asks? && e.request.Attach? && e.request.buffer.Some? ==> !Holds(g, e.request.buffer.value)
    ensures HeldOnce(Advance(g, e))
    ensures e.LosesBuffer? ==> !Holds(Advance(g, e), e.buffer)
  {
  }

  lemma NewBufferIsNotHeld(t: Tree, x: Surface, r: Request)
    requires Enabled(t, StateRequest(x, r)) && r.Attach? && r.buffer.Some?
    ensures !Holds(StageOf(t, x), r.buffer.value)
  {
    assert RoleOk(t.shape, x);
  }

  lemma StepHoldsOnce(t: Tree, op: Op, x: Surface)
    requires Enabled(t, op) && x in t.surf && op != DestroySurface(x) && HeldOnce(StageOf(t, x))
    ensures x in Step(t, op).surf && HeldOnce(StageOf(Step(t, op), x))
  {
    hide Step, StageOf, Advance, HeldOnce, Holds, Valid, NewBuffer;
    StepAdvances(t, op, x);
    var e := EventAt(t, op, x);
    if e.Asks? && e.request.Attach? && e.request.buffer.Some? { NewBufferIsNotHeld(t, x, e.request); }
    AdvanceHoldsOnce(StageOf(t, x), e);
  }

  /** On every run from a surface that holds each buffer once, it goes on doing so. */
  lemma {:induction false} BuffersAreHeldOnce(t: Tree, ops: seq<Op>, x: Surface)
    requires Valid(t) && EnabledRun(t, ops) && x in t.surf && DestroySurface(x) !in ops && HeldOnce(StageOf(t, x))
    ensures x in Run(t, ops).surf && HeldOnce(StageOf(Run(t, ops), x))
    decreases |ops|
  {
    if ops != [] {
      StepHoldsOnce(t, ops[0], x);
      hide Step, Enabled, StageOf, Valid, HeldOnce;
      BuffersAreHeldOnce(Step(t, ops[0]), ops[1..], x);
    }
  }

  lemma NewSurfaceHoldsNothing(t: Tree, x: Surface)
    requires Enabled(t, CreateSurface(x))
    ensures
      var g := StageOf(DoCreateSurface(t, x), x);
      && HeldOnce(g) && g.cached == g.pending == NO_PATCH
      && g.shown == Look(None, Point(0, 0), {}, {}, true, 1, NO_RECT, NO_SIZE)
  {
    BlankIsNoPatch([]);
  }

  /** Some state of `x` has the buffer. */
  predicate InSomeState(t: Tree, x: Surface, b: Buffer)
    requires Valid(t) && x in t.surf
  {
    || t.surf[x].pending.buffer == Some(b) || t.surf[x].current.buffer == Some(b)
    || (t.shape.role[x] != null && CachedOf(t, x).buffer == Some(b))
  }

  lemma HoldsIsInSomeState(t: Tree, x: Surface, b: Buffer)
    requires Valid(t) && x in t.surf
    ensures Holds(StageOf(t, x), b) <==> InSomeState(t, x, b)
  {
    SourceIsOk(t, x, FromPending);
    if t.shape.role[x] != null { SourceIsOk(t, x, FromCached); }
  }

  /** So the destruction of a buffer, which lets go of it in one place, leaves it in none. */
  lemma DestroyedBufferIsGone(t: Tree, x: Surface, ops: seq<Op>, b: Buffer)
    requires Enabled(t, CreateSurface(x)) && EnabledRun(DoCreateSurface(t, x), ops) && DestroySurface(x) !in ops
    ensures x in Run(DoCreateSurface(t, x), ops).surf
    ensures !InSomeState(DoBufferGone(Run(DoCreateSurface(t, x), ops), x, b), x, b)
  {
    NewSurfaceHoldsNothing(t, x);
    BuffersAreHeldOnce(DoCreateSurface(t, x), ops, x);
    hide Run, EnabledRun, StageOf, Holds, HeldOnce, InSomeState, DoBufferGone, Advance;
    var end := Run(DoCreateSurface(t, x), ops);
    BufferGoneStage(end, x, b, x);
    AdvanceHoldsOnce(StageOf(end, x), LosesBuffer(b));
    HoldsIsInSomeState(DoBufferGone(end, x, b), x, b);
  }

  // ---------------------------------------------------------------- changes that are lost

  /** What `x` will show once all that was asked for is applied, the later change over the earlier. */
  function Promised(g: Stage): Look {
    Overlay(Overlay(g.shown, g.cached), g.pending)
  }

  /** The later change names the property too, or the earlier one changes nothing. */
  predicate Covers<T(==)>(later: Option<T>, earlier: Option<T>, shown: T) {
    later.Some? || earlier.None? || earlier.value == shown
  }

  predicate AttachmentCovers(g: Stage) {
    var later, earlier := g.pending.attachment, g.cached.attachment;
    || earlier.None?
    || (&& (later.Some? || earlier.value.buffer == g.shown.buffer)
        && ((later.Some? && later.value.buffer.Some?) || earlier.value.buffer.None?
            || earlier.value.offset == g.shown.offset))
  }

  /** A parked commit finds in the cache only what it replaces itself. */
  predicate ParkingCovers(g: Stage) {
    && AttachmentCovers(g)
    && Covers(g.pending.opaqueRegion, g.cached.opaqueRegion, g.shown.opaqueRegion)
    && Covers(g.pending.input, g.cached.input, InputRegion(g.shown.input, g.shown.inputIsInfinite))
    && Covers(g.pending.scale, g.cached.scale, g.shown.scale)
    && Covers(g.pending.sourceRect, g.cached.sourceRect, g.shown.sourceRect)
    && Covers(g.pending.destination, g.cached.destination, g.shown.destination)
  }

  /** A synchronized commit keeps what the surface will show if and only if every change that is still
      parked is made again by it or is none: the rest of the parked changes is lost. */
  lemma ParkingLosesIff(g: Stage)
    ensures Promised(Advance(g, Parks)) == Promised(g) <==> ParkingCovers(g)
  {
  }

  lemma CommitLosesIff(t: Tree, x: Surface)
    requires Valid(t) && x in t.surf && SyncedRole(t.shape, x)
    ensures Promised(StageOf(DoCommit(t, x), x)) == Promised(StageOf(t, x)) <==> ParkingCovers(StageOf(t, x))
  {
    hide StageOf, Promised, ParkingCovers, DoCommit, Advance;
    CommitStage(t, x, x);
    ParkingLosesIff(StageOf(t, x));
  }
}
