/** The double-buffered surface tree: surfaces, their subsurface roles and the commit that walks them.

    The first half gives the state as values and every operation as a function from one tree to the
    next. The second half is the program itself: classes whose methods update their fields in place,
    each proved to do to the heap what the function does to the tree. */
module SurfaceTree {
  import opened Seqs
  import opened Restack

  // ---------------------------------------------------------------- values

  datatype Point = Point(x: int, y: int)

  datatype Size = Size(width: int, height: int) {
    predicate Valid() { width >= 0 && height >= 0 }
  }

  const NO_SIZE := Size(-1, -1)

  datatype Rect = Rect(x: real, y: real, width: real, height: real) {
    predicate Valid() { width > 0.0 && height > 0.0 }
  }

  const NO_RECT := Rect(0.0, 0.0, 0.0, 0.0)

  /** A region is the set of its pixels. */
  type Region = set<(int, int)>

  /** Every attach request makes a new buffer object, so `id` names one attach. */
  datatype Buffer = Buffer(id: nat, size: Size)

  datatype Change =
    | Mapped | BufferSet | Resized | OpaqueSet | ScaleSet | TransformSet
    | SourceSet | InputSet | ChildrenSet | FrameSet

  datatype Mode = Synchronized | Desynchronized

  /** Presentation feedbacks that wait together, and the output they are locked to. */
  datatype Feedbacks = Feedbacks(items: seq<nat>, output: Option<nat>)

  /** What pending, cached and current contain. */
  datatype SurfaceState = SurfaceState(
    updates: set<Change>,
    buffer: Option<Buffer>,
    offset: Point,
    opaqueRegion: Region,
    input: Region,
    inputIsInfinite: bool,
    scale: int,
    transform: nat,
    sourceRect: Rect,
    destination: Size,
    destinationIsSet: bool,
    children: seq<Subsurface>,
    callbacks: seq<nat>,
    feedbacks: Option<Feedbacks>)

  const NO_FEEDBACKS := Feedbacks([], None)

  /** A default-constructed state whose children list is `children`. */
  function Blank(children: seq<Subsurface>): SurfaceState {
    SurfaceState({}, None, Point(0, 0), {}, {}, true, 1, 0, NO_RECT, NO_SIZE, false,
                 children, [], Some(NO_FEEDBACKS))
  }

  /** What the server sends to the client on behalf of one surface. */
  datatype Event = Done(callback: nat) | Presented(feedback: nat) | Discarded(feedback: nat)

  datatype SurfaceRec = SurfaceRec(
    current: SurfaceState,
    pending: SurfaceState,
    feedbackId: nat,
    waiting: map<nat, Feedbacks>,
    sent: seq<Event>)

  datatype SubRec = SubRec(
    pos: Point,
    scheduledPos: Point,
    scheduledPosChange: bool,
    cached: SurfaceState)

  /** Who plays which role for whom, and in which mode. `depth` and `bound` witness that the parent
      links form a forest; the program does not have them. */
  datatype Shape = Shape(
    role: map<Surface, Subsurface?>,
    surface: map<Subsurface, Surface?>,
    parent: map<Subsurface, Surface?>,
    mode: map<Subsurface, Mode>,
    depth: map<Surface, nat>,
    bound: nat)

  datatype Tree = Tree(shape: Shape, surf: map<Surface, SurfaceRec>, sub: map<Subsurface, SubRec>)

  // ---------------------------------------------------------------- well-formedness

  ghost predicate ValidShape(sh: Shape) {
    && sh.surface.Keys == sh.parent.Keys == sh.mode.Keys
    && sh.role.Keys == sh.depth.Keys
    && (forall s :: s in sh.depth ==> sh.depth[s] < sh.bound)
    && (forall s {:trigger RoleOk(sh, s)} :: s in sh.role ==> RoleOk(sh, s))
    && (forall u {:trigger SubsurfaceOk(sh, u)} :: u in sh.surface ==> SubsurfaceOk(sh, u))
  }

  ghost predicate RoleOk(sh: Shape, s: Surface)
    requires s in sh.role
  {
    var u := sh.role[s];
    u != null ==> u in sh.surface && sh.surface[u] == s
  }

  /** A subsurface plays its role for one surface; its parent lies strictly nearer to the root. */
  ghost predicate SubsurfaceOk(sh: Shape, u: Subsurface)
    requires u in sh.surface && u in sh.parent
  {
    var s, p := sh.surface[u], sh.parent[u];
    && (s != null ==> s in sh.role && sh.role[s] == u)
    && (p != null ==> p in sh.role && s != null)
    && (p != null ==> s in sh.depth && p in sh.depth && sh.depth[p] < sh.depth[s])
  }

  ghost predicate ChildrenOk(sh: Shape, p: Surface, list: seq<Subsurface>) {
    && NoDup(list)
    && forall c :: c in list ==>
         c in sh.surface && c in sh.parent && sh.parent[c] == p && sh.surface[c] != null
  }

  /** States that a commit may read: the pending one and the cached one. */
  ghost predicate SourceOk(sh: Shape, s: Surface, st: SurfaceState) {
    && ChildrenOk(sh, s, st.children)
    && st.feedbacks.Some?
    && st.feedbacks.value.output == None
    && (st.buffer.Some? ==> BufferSet in st.updates)
    && (!st.destinationIsSet ==> st.destination == NO_SIZE)
    && Mapped !in st.updates && Resized !in st.updates && FrameSet !in st.updates && TransformSet !in st.updates
  }

  const ID_LIMIT: nat := 0x1_0000_0000

  ghost predicate SurfaceOk(sh: Shape, s: Surface, r: SurfaceRec) {
    && ChildrenOk(sh, s, r.current.children)
    && (r.current.feedbacks.Some? ==> r.current.feedbacks.value.output == None)
    && SourceOk(sh, s, r.pending)
    && r.feedbackId < ID_LIMIT
    && (forall i :: i in r.waiting ==> 0 < i < ID_LIMIT)
    && (forall i :: i in r.waiting && r.waiting[i].items != [] ==> r.waiting[i].output.Some?)
  }

  ghost predicate CacheOk(sh: Shape, u: Subsurface, r: SubRec)
    requires u in sh.surface
  {
    && r.cached.feedbacks.Some?
    && (sh.surface[u] != null ==> SourceOk(sh, sh.surface[u], r.cached))
  }

  ghost predicate Valid(t: Tree) {
    && ValidShape(t.shape)
    && t.surf.Keys == t.shape.role.Keys
    && t.sub.Keys == t.shape.surface.Keys
    && (forall s {:trigger SurfaceOk(t.shape, s, t.surf[s])} ::
         s in t.surf ==> SurfaceOk(t.shape, s, t.surf[s]))
    && (forall u {:trigger CacheOk(t.shape, u, t.sub[u])} ::
         u in t.sub ==> CacheOk(t.shape, u, t.sub[u]))
  }

  // ---------------------------------------------------------------- the parent chain

  ghost function Links(sh: Shape, u: Subsurface): nat
    requires ValidShape(sh) && u in sh.surface
  {
    assert SubsurfaceOk(sh, u);
    if sh.parent[u] == null then 0 else sh.depth[sh.parent[u]] + 1
  }

  /** `Subsurface::isSynchronized`. */
  predicate IsSync(sh: Shape, u: Subsurface)
    requires ValidShape(sh) && u in sh.surface
    decreases Links(sh, u)
  {
    if sh.mode[u] == Synchronized then true
    else
      var p := sh.parent[u];
      if p == null then false
      else
        assert SubsurfaceOk(sh, u) && RoleOk(sh, p);
        var v := sh.role[p];
        if v == null then false else
          assert SubsurfaceOk(sh, v);
          IsSync(sh, v)
  }

  /** The surface plays a subsurface role that is effectively synchronized. */
  predicate SyncedRole(sh: Shape, s: Surface)
    requires ValidShape(sh) && s in sh.role
  {
    assert RoleOk(sh, s);
    sh.role[s] != null && IsSync(sh, sh.role[s])
  }

  /** `Subsurface::mainSurface`. */
  function MainSurface(sh: Shape, u: Subsurface): Surface?
    requires ValidShape(sh) && u in sh.surface
    decreases Links(sh, u)
  {
    var p := sh.parent[u];
    if p == null then null
    else
      assert SubsurfaceOk(sh, u) && RoleOk(sh, p);
      var v := sh.role[p];
      if v == null then p else
        assert SubsurfaceOk(sh, v);
        MainSurface(sh, v)
  }

  /** The surfaces `synced_child_update` reaches from `s`: its parent, and on while synchronized. */
  function MarkedAbove(sh: Shape, s: Surface): (r: set<Surface>)
    requires ValidShape(sh) && s in sh.role
    ensures forall x :: x in r ==> x in sh.depth && sh.depth[x] < sh.depth[s]
    decreases sh.depth[s]
  {
    assert RoleOk(sh, s);
    var u := sh.role[s];
    if u == null || !IsSync(sh, u) || sh.parent[u] == null then {}
    else
      var p := sh.parent[u];
      assert SubsurfaceOk(sh, u);
      {p} + MarkedAbove(sh, p)
  }

  // ---------------------------------------------------------------- patching one surface

  function WithUpdate(r: SurfaceRec, c: Change): SurfaceRec {
    r.(current := r.current.(updates := r.current.updates + {c}))
  }

  function PutSurface(t: Tree, s: Surface, rec: SurfaceRec): (r: Tree)
    requires Valid(t) && s in t.surf && SurfaceOk(t.shape, s, rec)
    ensures Valid(r)
  {
    t.(surf := t.surf[s := rec])
  }

  function PutSub(t: Tree, u: Subsurface, rec: SubRec): (r: Tree)
    requires Valid(t) && u in t.sub && CacheOk(t.shape, u, rec)
    ensures Valid(r)
  {
    t.(sub := t.sub[u := rec])
  }

  /** Raises the children flag in the current updates of every surface in `marked`. */
  function Mark(t: Tree, marked: set<Surface>): (r: Tree)
    requires Valid(t)
    ensures Valid(r)
  {
    var r := t.(surf := map x | x in t.surf ::
                  if x in marked then WithUpdate(t.surf[x], ChildrenSet) else t.surf[x]);
    assert Valid(r) by {
      forall x | x in r.surf ensures SurfaceOk(t.shape, x, r.surf[x]) {
        assert SurfaceOk(t.shape, x, t.surf[x]);
      }
      forall u | u in r.sub ensures CacheOk(t.shape, u, r.sub[u]) {
        assert CacheOk(t.shape, u, t.sub[u]);
      }
    }
    r
  }

  /** The source shows the surface without content. */
  predicate Unmaps(src: SurfaceState) {
    BufferSet in src.updates && src.buffer.None?
  }

  /** `update_buffer` on the surface itself. */
  function Buffered(cur: SurfaceState, src: SurfaceState): SurfaceState {
    if BufferSet !in src.updates then cur
    else
      var wasMapped, nowMapped := cur.buffer.Some?, src.buffer.Some?;
      var c := cur.(
        buffer := src.buffer,
        updates := if wasMapped != nowMapped then cur.updates + {Mapped} else cur.updates);
      if nowMapped then c.(offset := src.offset) else c
  }

  /** What `update_buffer` reports through its out-parameter. */
  predicate BufferResizes(cur: SurfaceState, src: SurfaceState) {
    && BufferSet in src.updates
    && src.buffer.Some?
    && src.buffer.value.size.Valid()
    && src.buffer.value.size != (if cur.buffer.Some? then cur.buffer.value.size else NO_SIZE)
  }

  /** `copy_to_current`. */
  function Copied(cur: SurfaceState, src: SurfaceState): SurfaceState {
    var callbacks := cur.callbacks + src.callbacks;
    cur.(
    children := if ChildrenSet in src.updates then src.children else cur.children,
    callbacks := callbacks,
    updates := if callbacks != [] then cur.updates + {FrameSet} else cur.updates,
    input := if InputSet in src.updates then src.input else cur.input,
    inputIsInfinite := if InputSet in src.updates then src.inputIsInfinite else cur.inputIsInfinite,
    opaqueRegion := if OpaqueSet in src.updates then src.opaqueRegion else cur.opaqueRegion,
    scale := if ScaleSet in src.updates then src.scale else cur.scale,
    transform := if TransformSet in src.updates then src.transform else cur.transform,
    destination := if src.destinationIsSet then src.destination else cur.destination,
    sourceRect := if SourceSet in src.updates then src.sourceRect else cur.sourceRect)
  }

  /** The out-parameter of `copy_to_current`, given the one of `update_buffer` and the new buffer. */
  predicate CopyResizes(resized: bool, hasBuffer: bool, src: SurfaceState) {
    if && SourceSet in src.updates && hasBuffer && !src.destination.Valid()
       && src.sourceRect.Valid()
    then true
    else if src.destinationIsSet then hasBuffer
    else resized
  }

  /** `updateCurrentState` on the surface itself: the current state after `src` is applied. */
  function Patched(cur: SurfaceState, src: SurfaceState): SurfaceState {
    var scaleChanged := ScaleSet in src.updates && cur.scale != src.scale;
    var c := Copied(Buffered(cur.(updates := src.updates), src), src);
    var copied := CopyResizes(BufferResizes(cur, src), c.buffer.Some?, src);
    var resized := if scaleChanged then c.buffer.Some? else copied;
    c.(updates := if resized then c.updates + {Resized} else c.updates, feedbacks := src.feedbacks)
  }

  function DiscardEvents(items: seq<nat>): seq<Event> {
    seq(|items|, i requires 0 <= i < |items| => Discarded(items[i]))
  }

  /** Destroying a set of feedbacks discards all that are left in it. */
  function DropEvents(f: Option<Feedbacks>): seq<Event> {
    if f.Some? then DiscardEvents(f.value.items) else []
  }

  /** Which of its states the surface takes its update from. */
  datatype Source = FromPending | FromCached

  function SourceState(t: Tree, s: Surface, from: Source): SurfaceState
    requires Valid(t) && s in t.surf
    requires from == FromCached ==> t.shape.role[s] != null
  {
    assert RoleOk(t.shape, s);
    if from == FromPending then t.surf[s].pending else t.sub[t.shape.role[s]].cached
  }

  /** The surface record once `src` is applied, before the source itself is reset. */
  function Taken(r: SurfaceRec, src: SurfaceState): SurfaceRec {
    r.(current := Patched(r.current, src), sent := r.sent + DropEvents(r.current.feedbacks))
  }

  /** `updateCurrentState` up to, not including, the loop over the children. */
  function Own(t: Tree, s: Surface, from: Source): (r: Tree)
    requires Valid(t) && s in t.surf
    requires from == FromCached ==> t.shape.role[s] != null
    ensures r.shape == t.shape && Valid(r)
  {
    assert RoleOk(t.shape, s);
    var src := SourceState(t, s, from);
    SourceIsOk(t, s, from);
    var taken := Taken(t.surf[s], src);
    var blank := Blank(taken.current.children);
    var own := if from == FromPending then taken.(pending := blank) else taken;
    var marked := Mark(PutSurface(t, s, own), if Unmaps(src) then MarkedAbove(t.shape, s) else {});
    if from == FromPending then marked
    else PutSub(marked, t.shape.role[s], t.sub[t.shape.role[s]].(cached := blank))
  }

  lemma SourceIsOk(t: Tree, s: Surface, from: Source)
    requires Valid(t) && s in t.surf
    requires from == FromCached ==> t.shape.role[s] != null
    ensures SurfaceOk(t.shape, s, t.surf[s])
    ensures SourceOk(t.shape, s, SourceState(t, s, from))
    ensures from == FromCached ==>
      t.shape.role[s] in t.sub && t.shape.surface[t.shape.role[s]] == s
  {
    assert RoleOk(t.shape, s) && SurfaceOk(t.shape, s, t.surf[s]);
    if from == FromCached {
      assert CacheOk(t.shape, t.shape.role[s], t.sub[t.shape.role[s]]);
    }
  }

  // ---------------------------------------------------------------- walking the tree

  function Positioned(r: SubRec): SubRec {
    if r.scheduledPosChange then
      r.(scheduledPosChange := false, pos := r.scheduledPos, scheduledPos := Point(0, 0))
    else r
  }

  /** What `applyCached` does at one subsurface: take the scheduled position and, when forced or
      effectively synchronized, the cached state. */
  function Visit(t: Tree, c: Subsurface, force: bool): (r: Tree)
    requires Valid(t) && c in t.sub && t.shape.surface[c] != null
    ensures r.shape == t.shape && Valid(r)
  {
    assert SubsurfaceOk(t.shape, c) && CacheOk(t.shape, c, t.sub[c]);
    var moved := PutSub(t, c, Positioned(t.sub[c]));
    if force || IsSync(t.shape, c) then Own(moved, t.shape.surface[c], FromCached) else moved
  }

  /** The recursion of `updateCurrentState` and `applyCached` over a list of children of `p`.
      Each child's list is read after the child's own update has rewritten it. */
  function Walk(t: Tree, p: Surface, list: seq<Subsurface>, force: bool): (r: Tree)
    requires Valid(t) && p in t.surf && ChildrenOk(t.shape, p, list)
    ensures r.shape == t.shape && Valid(r)
    decreases t.shape.bound - t.shape.depth[p], |list|
  {
    if list == [] then t
    else
      var c := list[0];
      assert SubsurfaceOk(t.shape, c);
      var s := t.shape.surface[c];
      var visited := Visit(t, c, force);
      assert SurfaceOk(visited.shape, s, visited.surf[s]);
      var below := Walk(visited, s, visited.surf[s].current.children, force || IsSync(t.shape, c));
      Walk(below, p, list[1..], force)
  }

  /** `updateCurrentState(source, forceChildren)`. */
  function Update(t: Tree, s: Surface, from: Source, force: bool): (r: Tree)
    requires Valid(t) && s in t.surf
    requires from == FromCached ==> t.shape.role[s] != null
    ensures r.shape == t.shape && Valid(r)
  {
    var own := Own(t, s, from);
    assert SurfaceOk(own.shape, s, own.surf[s]);
    Walk(own, s, own.surf[s].current.children, force)
  }

  /** Parking the pending state: `Subsurface::Private::commit` in synchronized mode. */
  function Park(t: Tree, s: Surface): (r: Tree)
    requires Valid(t) && s in t.surf && t.shape.role[s] != null
    ensures r.shape == t.shape && Valid(r)
  {
    SourceIsOk(t, s, FromPending);
    SourceIsOk(t, s, FromCached);
    var u, rec := t.shape.role[s], t.surf[s];
    var parked := rec.(pending := Blank(rec.pending.children),
                       sent := rec.sent + DropEvents(t.sub[u].cached.feedbacks));
    PutSub(PutSurface(t, s, parked), u, t.sub[u].(cached := rec.pending))
  }

  /** `Surface::Private::commit`. */
  function DoCommit(t: Tree, s: Surface): (r: Tree)
    requires Valid(t) && s in t.surf
    ensures r.shape == t.shape && Valid(r)
  {
    if SyncedRole(t.shape, s) then Park(t, s) else Update(t, s, FromPending, false)
  }

  // ---------------------------------------------------------------- requests on one surface

  /** Requests that only write the pending state. */
  datatype Request =
    | Attach(buffer: Option<Buffer>, offset: Point)
    | SetOpaque(region: Region)
    | SetInput(region: Region, infinite: bool)
    | SetScale(scale: int)
    | SetTransform(transform: nat)
    | SetSource(rect: Rect)
    | SetDestination(size: Size)
    | RequestFrame(callback: nat)
    | RequestFeedback(feedback: nat)

  function AddedFeedback(f: Feedbacks, feedback: nat): Feedbacks {
    f.(items := f.items + [feedback])
  }

  /** The pending state after a request. A feedback needs the pending slot to be there. */
  function Requested(p: SurfaceState, r: Request): SurfaceState
    requires r.RequestFeedback? ==> p.feedbacks.Some?
  {
    match r
    case Attach(b, o) => p.(buffer := b, offset := o, updates := p.updates + {BufferSet})
    case SetOpaque(g) => p.(opaqueRegion := g, updates := p.updates + {OpaqueSet})
    case SetInput(g, inf) => p.(input := g, inputIsInfinite := inf, updates := p.updates + {InputSet})
    case SetScale(n) => p.(scale := n, updates := p.updates + {ScaleSet})
    case SetTransform(n) => p.(transform := n)
    case SetSource(g) => p.(sourceRect := g, updates := p.updates + {SourceSet})
    case SetDestination(z) => p.(destination := z, destinationIsSet := true)
    case RequestFrame(c) => p.(callbacks := p.callbacks + [c])
    case RequestFeedback(f) => p.(feedbacks := Some(AddedFeedback(p.feedbacks.value, f)))
  }

  lemma RequestedOk(sh: Shape, s: Surface, p: SurfaceState, r: Request)
    requires SourceOk(sh, s, p)
    ensures SourceOk(sh, s, Requested(p, r))
  {
  }

  function DoRequest(t: Tree, s: Surface, req: Request): (r: Tree)
    requires Valid(t) && s in t.surf
    ensures r.shape == t.shape && Valid(r)
  {
    SourceIsOk(t, s, FromPending);
    RequestedOk(t.shape, s, t.surf[s].pending, req);
    PutSurface(t, s, t.surf[s].(pending := Requested(t.surf[s].pending, req)))
  }

  /** The buffer object `b` of surface `s` is destroyed: the first state that holds it lets go. */
  function DoBufferGone(t: Tree, s: Surface, b: Buffer): (r: Tree)
    requires Valid(t) && s in t.surf
    ensures r.shape == t.shape && Valid(r)
  {
    SourceIsOk(t, s, FromPending);
    var rec, u := t.surf[s], t.shape.role[s];
    if rec.pending.buffer == Some(b) then
      PutSurface(t, s, rec.(pending := rec.pending.(buffer := None)))
    else if rec.current.buffer == Some(b) then
      PutSurface(t, s, rec.(current := rec.current.(buffer := None)))
    else if u != null then
      SourceIsOk(t, s, FromCached);
      var cached := t.sub[u].cached;
      if cached.buffer == Some(b) then PutSub(t, u, t.sub[u].(cached := cached.(buffer := None))) else t
    else t
  }

  // ---------------------------------------------------------------- presentation feedback

  /** The next id to hand out: a 32-bit counter that skips zero. */
  function NextId(id: nat): (r: nat)
    requires id < ID_LIMIT
    ensures 0 < r < ID_LIMIT
  {
    if id + 1 == ID_LIMIT then 1 else id + 1
  }

  /** `lockPresentation` finds something to lock. */
  predicate CanLock(r: SurfaceRec) {
    r.current.feedbacks.Some? && r.current.feedbacks.value.items != []
  }

  function Waiting(r: SurfaceRec, id: nat): Option<Feedbacks> {
    if id in r.waiting then Some(r.waiting[id]) else None
  }

  /** The current feedbacks move under a fresh id; what waited under it is discarded. */
  function Locked(rec: SurfaceRec, output: nat): SurfaceRec
    requires CanLock(rec) && rec.feedbackId < ID_LIMIT
  {
    var id := NextId(rec.feedbackId);
    rec.(current := rec.current.(feedbacks := None),
         feedbackId := id,
         waiting := rec.waiting[id := rec.current.feedbacks.value.(output := Some(output))],
         sent := rec.sent + DropEvents(Waiting(rec, id)))
  }

  /** `lockPresentation`; the id it returns is zero or the new counter. */
  function DoLock(t: Tree, s: Surface, output: nat): (r: Tree)
    requires Valid(t) && s in t.surf
    ensures r.shape == t.shape && Valid(r)
  {
    SourceIsOk(t, s, FromPending);
    if !CanLock(t.surf[s]) then t else PutSurface(t, s, Locked(t.surf[s], output))
  }

  function PresentEvents(items: seq<nat>): seq<Event> {
    seq(|items|, i requires 0 <= i < |items| => Presented(items[i]))
  }

  /** `presentationFeedback` and `presentationDiscarded`: the waiting entry is answered and erased. */
  function DoAnswer(t: Tree, s: Surface, id: nat, presented: bool): (r: Tree)
    requires Valid(t) && s in t.surf && id in t.surf[s].waiting
    ensures r.shape == t.shape && Valid(r)
  {
    SourceIsOk(t, s, FromPending);
    var rec := t.surf[s];
    var items := rec.waiting[id].items;
    PutSurface(t, s, rec.(
      waiting := rec.waiting - {id},
      sent := rec.sent + if presented then PresentEvents(items) else DiscardEvents(items)))
  }

  /** The output that waiting entry `id` is locked to goes away. */
  function DoOutputGone(t: Tree, s: Surface, id: nat): (r: Tree)
    requires Valid(t) && s in t.surf && id in t.surf[s].waiting && t.surf[s].waiting[id].output.Some?
    ensures r.shape == t.shape && Valid(r)
  {
    SourceIsOk(t, s, FromPending);
    var rec := t.surf[s];
    PutSurface(t, s, rec.(
      waiting := rec.waiting[id := NO_FEEDBACKS],
      sent := rec.sent + DiscardEvents(rec.waiting[id].items)))
  }

  /** Where a feedback that is not answered yet can be. */
  datatype Place = InPending | InCached | InCurrent | InWaiting(id: nat)

  /** The feedbacks held at a place, none when there is no such place. */
  function Held(t: Tree, s: Surface, place: Place): seq<nat>
    requires Valid(t) && s in t.surf
  {
    assert RoleOk(t.shape, s);
    var rec, u := t.surf[s], t.shape.role[s];
    match place
    case InPending => if rec.pending.feedbacks.Some? then rec.pending.feedbacks.value.items else []
    case InCurrent => if rec.current.feedbacks.Some? then rec.current.feedbacks.value.items else []
    case InWaiting(id) => if id in rec.waiting then rec.waiting[id].items else []
    case InCached =>
      if u != null && t.sub[u].cached.feedbacks.Some? then t.sub[u].cached.feedbacks.value.items else []
  }

  function Dropped(f: Feedbacks, feedback: nat): Feedbacks
    requires feedback in f.items
  {
    f.(items := EraseAt(f.items, IndexOf(f.items, feedback)))
  }

  /** The client's feedback object is destroyed while it waits at `place`. */
  function DoFeedbackGone(t: Tree, s: Surface, place: Place, fb: nat): (r: Tree)
    requires Valid(t) && s in t.surf && fb in Held(t, s, place)
    ensures r.shape == t.shape && Valid(r)
  {
    SourceIsOk(t, s, FromPending);
    var rec, u := t.surf[s], t.shape.role[s];
    match place
    case InPending =>
      PutSurface(t, s, rec.(pending := rec.pending.(feedbacks := Some(Dropped(rec.pending.feedbacks.value, fb)))))
    case InCurrent =>
      PutSurface(t, s, rec.(current := rec.current.(feedbacks := Some(Dropped(rec.current.feedbacks.value, fb)))))
    case InWaiting(id) =>
      PutSurface(t, s, rec.(waiting := rec.waiting[id := Dropped(rec.waiting[id], fb)]))
    case InCached =>
      SourceIsOk(t, s, FromCached);
      var cached := t.sub[u].cached;
      PutSub(t, u, t.sub[u].(cached := cached.(feedbacks := Some(Dropped(cached.feedbacks.value, fb)))))
  }

  // ---------------------------------------------------------------- frame callbacks

  function DoneEvents(callbacks: seq<nat>): seq<Event> {
    seq(|callbacks|, i requires 0 <= i < |callbacks| => Done(callbacks[i]))
  }

  function Drained(r: SurfaceRec): SurfaceRec {
    r.(current := r.current.(callbacks := []), sent := r.sent + DoneEvents(r.current.callbacks))
  }

  /** `frameRendered` on every surface of a list of children, and below. */
  function RenderAll(t: Tree, p: Surface, list: seq<Subsurface>): (r: Tree)
    requires Valid(t) && p in t.surf && ChildrenOk(t.shape, p, list)
    ensures r.shape == t.shape && Valid(r)
    decreases t.shape.bound - t.shape.depth[p], 0, |list|
  {
    if list == [] then t
    else
      assert SubsurfaceOk(t.shape, list[0]);
      RenderAll(Render(t, t.shape.surface[list[0]]), p, list[1..])
  }

  /** `frameRendered`. */
  function Render(t: Tree, s: Surface): (r: Tree)
    requires Valid(t) && s in t.surf
    ensures r.shape == t.shape && Valid(r)
    decreases t.shape.bound - t.shape.depth[s], 1, 0
  {
    SourceIsOk(t, s, FromPending);
    RenderAll(PutSurface(t, s, Drained(t.surf[s])), s, t.surf[s].current.children)
  }

  // ---------------------------------------------------------------- the shape of the tree

  /** `x` is `s` or lies below it. */
  predicate Under(sh: Shape, s: Surface, x: Surface)
    requires ValidShape(sh) && x in sh.role
    decreases sh.depth[x]
  {
    if x == s then true
    else
      assert RoleOk(sh, x);
      var u := sh.role[x];
      if u == null || sh.parent[u] == null then false
      else
        assert SubsurfaceOk(sh, u);
        Under(sh, s, sh.parent[u])
  }

  ghost predicate KeepsChild(sh: Shape, sh': Shape, c: Subsurface) {
    && c in sh.parent && c in sh'.surface && c in sh'.parent
    && sh'.parent[c] == sh.parent[c] && sh'.surface[c] != null
  }

  lemma SurfaceMoves(sh: Shape, sh': Shape, s: Surface, r: SurfaceRec)
    requires SurfaceOk(sh, s, r)
    requires forall c :: c in r.current.children ==> KeepsChild(sh, sh', c)
    requires forall c :: c in r.pending.children ==> KeepsChild(sh, sh', c)
    ensures SurfaceOk(sh', s, r)
  {
  }

  lemma CacheMoves(sh: Shape, sh': Shape, u: Subsurface, r: SubRec)
    requires u in sh.surface && u in sh'.surface && CacheOk(sh, u, r)
    requires sh'.surface[u] == null || sh'.surface[u] == sh.surface[u]
    requires sh'.surface[u] != null ==> forall c :: c in r.cached.children ==> KeepsChild(sh, sh', c)
    ensures CacheOk(sh', u, r)
  {
  }

  /** The children a subsurface has parked in its cache; a surface without the role has none. */
  function CachedChildren(t: Tree, p: Surface): seq<Subsurface>
    requires Valid(t) && p in t.surf
  {
    assert RoleOk(t.shape, p);
    if t.shape.role[p] == null then [] else t.sub[t.shape.role[p]].cached.children
  }

  lemma CachedChildrenOk(t: Tree, p: Surface)
    requires Valid(t) && p in t.surf
    ensures ChildrenOk(t.shape, p, CachedChildren(t, p))
  {
    if t.shape.role[p] != null { SourceIsOk(t, p, FromCached); }
  }

  ghost predicate NowhereListed(t: Tree, u: Subsurface)
    requires Valid(t)
  {
    forall x :: x in t.surf ==>
      && u !in t.surf[x].current.children
      && u !in t.surf[x].pending.children
      && u !in CachedChildren(t, x)
  }

  /** A tree keeps its records while its shape changes: `made` joins without being listed, `gone` is
      listed nowhere, and the surface `dead` leaves together with its lists. */
  lemma Reshaped(t: Tree, r: Tree, made: Subsurface?, gone: Subsurface?, dead: Surface?)
    requires Valid(t) && ValidShape(r.shape)
    requires r.surf.Keys == r.shape.role.Keys && r.sub.Keys == r.shape.surface.Keys
    requires forall x :: x in r.surf ==> x in t.surf && r.surf[x] == t.surf[x] && x != dead
    requires forall v :: v in r.sub && v != made ==>
      && v in t.sub && r.sub[v] == t.sub[v]
      && (r.shape.surface[v] == null || r.shape.surface[v] == t.shape.surface[v])
    requires made != null && made in r.sub ==> r.sub[made].cached == Blank([])
    requires gone != null ==> NowhereListed(t, gone)
    requires forall c :: c in t.sub && c != gone && t.shape.surface[c] != null && t.shape.parent[c] != dead ==>
      KeepsChild(t.shape, r.shape, c)
    ensures Valid(r)
  {
    forall x | x in r.surf ensures SurfaceOk(r.shape, x, r.surf[x]) {
      SourceIsOk(t, x, FromPending);
      SurfaceMoves(t.shape, r.shape, x, t.surf[x]);
    }
    forall v | v in r.sub ensures CacheOk(r.shape, v, r.sub[v]) {
      if v != made {
        assert CacheOk(t.shape, v, t.sub[v]) && SubsurfaceOk(t.shape, v) && SubsurfaceOk(r.shape, v);
        var x := r.shape.surface[v];
        if x != null { assert x in t.surf && CachedChildren(t, x) == t.sub[v].cached.children; }
        CacheMoves(t.shape, r.shape, v, t.sub[v]);
      }
    }
  }

  function DoCreateSurface(t: Tree, s: Surface): (r: Tree)
    requires Valid(t) && s !in t.surf
    ensures Valid(r)
  {
    var sh := t.shape;
    var sh' := sh.(role := sh.role[s := null], depth := sh.depth[s := 0], bound := sh.bound + 1);
    var r := Tree(sh', t.surf[s := SurfaceRec(Blank([]), Blank([]), 0, map[], [])], t.sub);
    assert ValidShape(sh') by {
      forall x | x in sh'.role ensures RoleOk(sh', x) { if x != s { assert RoleOk(sh, x); } }
      forall u | u in sh'.surface ensures SubsurfaceOk(sh', u) { assert SubsurfaceOk(sh, u); }
    }
    assert Valid(r) by {
      forall x | x in r.surf ensures SurfaceOk(r.shape, x, r.surf[x]) {
        if x != s { assert SurfaceOk(t.shape, x, t.surf[x]); }
      }
      forall u | u in r.sub ensures CacheOk(r.shape, u, r.sub[u]) { assert CacheOk(t.shape, u, t.sub[u]); }
    }
    r
  }

  /** The shape once `u` makes `s` a subsurface of `p`. Everything from `s` down moves below `p`. */
  function Attached(sh: Shape, u: Subsurface, s: Surface, p: Surface): (r: Shape)
    requires ValidShape(sh) && u !in sh.surface && s in sh.role && p in sh.role
    requires sh.role[s] == null && !Under(sh, s, p)
    ensures ValidShape(r)
    ensures forall c :: c in sh.surface && sh.surface[c] != null ==> KeepsChild(sh, r, c)
  {
    var r := Shape(
               sh.role[s := u], sh.surface[u := s], sh.parent[u := p], sh.mode[u := Synchronized],
               map x | x in sh.depth :: if Under(sh, s, x) then sh.depth[x] + sh.depth[p] + 1 else sh.depth[x],
               sh.bound + sh.depth[p] + 1);
    assert ValidShape(r) by {
      forall x | x in r.role ensures RoleOk(r, x) { assert RoleOk(sh, x); }
      forall v | v in r.surface ensures SubsurfaceOk(r, v) {
        if v != u {
          assert SubsurfaceOk(sh, v);
          var x, q := sh.surface[v], sh.parent[v];
          if x != null && q != null { assert Under(sh, s, x) == (x == s || Under(sh, s, q)); }
        }
      }
    }
    r
  }

  function PutCachedChildren(t: Tree, p: Surface, list: seq<Subsurface>): (r: Tree)
    requires Valid(t) && p in t.surf && ChildrenOk(t.shape, p, list)
    ensures r.shape == t.shape && r.surf == t.surf && Valid(r)
  {
    var v := t.shape.role[p];
    if v == null then t
    else
      SourceIsOk(t, p, FromCached);
      PutSub(t, v, t.sub[v].(cached := t.sub[v].cached.(children := list)))
  }

  function ChildAdded(t: Tree, p: Surface, u: Subsurface): (r: Tree)
    requires Valid(t) && p in t.surf && u in t.sub
    requires t.shape.parent[u] == p && t.shape.surface[u] != null
    requires u !in t.surf[p].pending.children
    requires u !in CachedChildren(t, p)
    ensures r.shape == t.shape && Valid(r)
  {
    SourceIsOk(t, p, FromPending);
    CachedChildrenOk(t, p);
    var rec := t.surf[p];
    var pending := rec.pending.(
      children := rec.pending.children + [u], updates := rec.pending.updates + {ChildrenSet});
    PutSurface(PutCachedChildren(t, p, CachedChildren(t, p) + [u]), p, rec.(pending := pending))
  }

  /** The new subsurface exists, but its parent does not list it yet. */
  function Joined(t: Tree, u: Subsurface, s: Surface, p: Surface): (r: Tree)
    requires Valid(t) && u !in t.sub && s in t.surf && p in t.surf
    requires t.shape.role[s] == null && !Under(t.shape, s, p)
    ensures Valid(r)
  {
    var r := Tree(Attached(t.shape, u, s, p), t.surf,
                  t.sub[u := SubRec(Point(0, 0), Point(0, 0), false, Blank([]))]);
    Reshaped(t, r, u, null, null);
    r
  }

  lemma JoinedIsReady(t: Tree, u: Subsurface, s: Surface, p: Surface)
    requires Valid(t) && u !in t.sub && s in t.surf && p in t.surf
    requires t.shape.role[s] == null && !Under(t.shape, s, p)
    ensures
      var j := Joined(t, u, s, p);
      && p in j.surf && u in j.sub && j.shape == Attached(t.shape, u, s, p)
      && j.shape.parent[u] == p && j.shape.surface[u] != null
      && u !in j.surf[p].pending.children && u !in CachedChildren(j, p)
  {
    SourceIsOk(t, p, FromPending);
    CachedChildrenOk(t, p);
    assert RoleOk(t.shape, p) && Under(t.shape, s, s);
  }

  /** `wl_subcompositor.get_subsurface`. */
  function DoCreateSubsurface(t: Tree, u: Subsurface, s: Surface, p: Surface): (r: Tree)
    requires Valid(t) && u !in t.sub && s in t.surf && p in t.surf
    requires t.shape.role[s] == null && !Under(t.shape, s, p)
    ensures r.shape == Attached(t.shape, u, s, p) && Valid(r)
  {
    JoinedIsReady(t, u, s, p);
    ChildAdded(Joined(t, u, s, p), p, u)
  }

  /** The child leaves the pending, the current and, for a subsurface, the cached list. */
  function ChildRemoved(t: Tree, p: Surface, u: Subsurface): (r: Tree)
    requires Valid(t) && p in t.surf
    ensures r.shape == t.shape && Valid(r)
  {
    SourceIsOk(t, p, FromPending);
    CachedChildrenOk(t, p);
    var rec := t.surf[p];
    PutSurface(PutCachedChildren(t, p, Without(CachedChildren(t, p), u)), p, rec.(
      pending := rec.pending.(children := Without(rec.pending.children, u)),
      current := rec.current.(children := Without(rec.current.children, u))))
  }

  /** Leaves the parent, if there is one. */
  function Detach(t: Tree, u: Subsurface): (r: Tree)
    requires Valid(t) && u in t.sub
    ensures r.shape == t.shape && Valid(r)
    ensures NowhereListed(r, u)
  {
    assert SubsurfaceOk(t.shape, u);
    var r := if t.shape.parent[u] == null then t else ChildRemoved(t, t.shape.parent[u], u);
    assert NowhereListed(r, u) by {
      forall x | x in r.surf
        ensures u !in r.surf[x].current.children && u !in r.surf[x].pending.children && u !in CachedChildren(r, x)
      {
        SourceIsOk(r, x, FromPending);
        CachedChildrenOk(r, x);
        if x == t.shape.parent[u] { assert RoleOk(t.shape, x); }
      }
    }
    r
  }

  /** The shape without `u`. */
  function Forgotten(sh: Shape, u: Subsurface): (r: Shape)
    requires ValidShape(sh) && u in sh.surface
    ensures ValidShape(r)
    ensures forall c :: c in sh.surface && c != u && sh.surface[c] != null ==> KeepsChild(sh, r, c)
  {
    var s := sh.surface[u];
    assert SubsurfaceOk(sh, u);
    var r := sh.(role := if s == null then sh.role else sh.role[s := null],
                 surface := sh.surface - {u}, parent := sh.parent - {u}, mode := sh.mode - {u});
    assert ValidShape(r) by {
      forall x | x in r.role ensures RoleOk(r, x) { assert RoleOk(sh, x); }
      forall v | v in r.surface ensures SubsurfaceOk(r, v) { assert SubsurfaceOk(sh, v); }
    }
    r
  }

  /** A subsurface that no list names can be dropped. */
  function Forget(t: Tree, u: Subsurface): (r: Tree)
    requires Valid(t) && u in t.sub && NowhereListed(t, u)
    ensures Valid(r)
  {
    var r := Tree(Forgotten(t.shape, u), t.surf, t.sub - {u});
    assert SubsurfaceOk(t.shape, u);
    Reshaped(t, r, null, u, null);
    r
  }

  /** Destroying the cached state discards its feedbacks. */
  function DropCache(t: Tree, u: Subsurface): (r: Tree)
    requires Valid(t) && u in t.sub
    ensures r.shape == t.shape && r.sub == t.sub && Valid(r)
    ensures NowhereListed(t, u) ==> NowhereListed(r, u)
  {
    assert SubsurfaceOk(t.shape, u);
    var s := t.shape.surface[u];
    if s == null then t
    else
      SourceIsOk(t, s, FromPending);
      hide ValidShape;
      PutSurface(t, s, t.surf[s].(sent := t.surf[s].sent + DropEvents(t.sub[u].cached.feedbacks)))
  }

  /** The `Subsurface` destructor: the surface loses its role, and what was cached is dropped. */
  function DoDestroySubsurface(t: Tree, u: Subsurface): (r: Tree)
    requires Valid(t) && u in t.sub
    ensures Valid(r)
  {
    Forget(DropCache(Detach(t, u), u), u)
  }

  /** Every subsurface that has `s` for its parent is in one of the lists the destructor goes through. */
  ghost predicate ChildrenKnown(t: Tree, s: Surface)
    requires Valid(t) && s in t.surf
  {
    forall u :: u in t.sub && t.shape.parent[u] == s ==>
      u in t.surf[s].current.children || u in t.surf[s].pending.children
  }

  /** The others: the destructor does not reach them, and the pointer to their parent is left dangling. */
  function Strays(t: Tree, s: Surface): (r: set<Subsurface>)
    requires Valid(t) && s in t.surf
    ensures r == {} <==> ChildrenKnown(t, s)
  {
    var r := set u | u in t.sub && t.shape.parent[u] == s
                     && u !in t.surf[s].current.children && u !in t.surf[s].pending.children;
    assert r == {} ==> ChildrenKnown(t, s) by {
      forall u | u in t.sub && t.shape.parent[u] == s && r == {}
        ensures u in t.surf[s].current.children || u in t.surf[s].pending.children
      {
        assert u !in r;
      }
    }
    r
  }

  /** A surface is destroyed: its subsurface turns inert and its children are orphaned. A dangling
      pointer counts as no parent; the program must not follow it. */
  function DoDestroySurface(t: Tree, s: Surface): (r: Tree)
    requires Valid(t) && s in t.surf
    ensures Valid(r)
  {
    assert RoleOk(t.shape, s);
    var u := t.shape.role[s];
    if u == null then Bury(t, s)
    else
      assert SubsurfaceOk(t.shape, u);
      assert Detach(t, u).surf[s] == t.surf[s];
      Bury(Detach(t, u), s)
  }

  /** The shape without `s`; its children lose their parent. */
  function Buried(sh: Shape, s: Surface): (r: Shape)
    requires ValidShape(sh) && s in sh.role
    ensures ValidShape(r)
    ensures forall c :: c in sh.surface && c != sh.role[s] && sh.parent[c] != s && sh.surface[c] != null ==>
                          KeepsChild(sh, r, c)
  {
    var u := sh.role[s];
    assert RoleOk(sh, s);
    var r := sh.(
      role := sh.role - {s}, depth := sh.depth - {s},
      surface := if u == null then sh.surface else sh.surface[u := null],
      parent := map v | v in sh.parent :: if v == u || sh.parent[v] == s then null else sh.parent[v]);
    assert ValidShape(r) by {
      forall x | x in r.role ensures RoleOk(r, x) { assert RoleOk(sh, x); }
      forall v | v in r.surface ensures SubsurfaceOk(r, v) { assert SubsurfaceOk(sh, v); }
    }
    r
  }

  /** A surface whose own subsurface no list names can be dropped. */
  function Bury(t: Tree, s: Surface): (r: Tree)
    requires Valid(t) && s in t.surf
    requires t.shape.role[s] != null ==> NowhereListed(t, t.shape.role[s])
    ensures Valid(r)
  {
    var r := Tree(Buried(t.shape, s), t.surf - {s}, t.sub);
    Reshaped(t, r, null, t.shape.role[s], s);
    r
  }

  /** The tree with the pointers that still lead to the destroyed surface `s`. */
  function Adrift(t: Tree, strays: set<Subsurface>, s: Surface): Tree {
    t.(shape := t.shape.(parent := map v | v in t.shape.parent :: if v in strays then s else t.shape.parent[v]))
  }

  function PutMode(t: Tree, u: Subsurface, m: Mode): (r: Tree)
    requires Valid(t) && u in t.sub
    ensures Valid(r)
  {
    var r := t.(shape := t.shape.(mode := t.shape.mode[u := m]));
    assert ValidShape(r.shape) by {
      forall x | x in r.shape.role ensures RoleOk(r.shape, x) { assert RoleOk(t.shape, x); }
      forall v | v in r.shape.surface ensures SubsurfaceOk(r.shape, v) { assert SubsurfaceOk(t.shape, v); }
    }
    assert Valid(r) by {
      forall x | x in r.surf ensures SurfaceOk(r.shape, x, r.surf[x]) { assert SurfaceOk(t.shape, x, t.surf[x]); }
      forall v | v in r.sub ensures CacheOk(r.shape, v, r.sub[v]) { assert CacheOk(t.shape, v, t.sub[v]); }
    }
    r
  }

  /** The child joins its parent's current list at once, on top, unless it is there. */
  function ShowNow(t: Tree, u: Subsurface): (r: Tree)
    requires Valid(t) && u in t.sub && t.shape.parent[u] != null
    ensures r.shape == t.shape && Valid(r)
  {
    assert SubsurfaceOk(t.shape, u);
    var p := t.shape.parent[u];
    SourceIsOk(t, p, FromPending);
    var rec := t.surf[p];
    if u in rec.current.children then t
    else PutSurface(t, p, rec.(current := rec.current.(children := rec.current.children + [u])))
  }

  /** `setMode`. The parent is needed only when the subsurface turns desynchronized. */
  function DoSetMode(t: Tree, u: Subsurface, m: Mode): (r: Tree)
    requires Valid(t) && u in t.sub
    requires m == Desynchronized && t.shape.mode[u] != m ==> t.shape.parent[u] != null
    ensures Valid(r)
  {
    if t.shape.mode[u] == m then t
    else
      var t1 := PutMode(t, u, m);
      assert SubsurfaceOk(t1.shape, u);
      if m == Desynchronized && !SyncedRole(t1.shape, t1.shape.parent[u])
      then Update(ShowNow(t1, u), t1.shape.surface[u], FromCached, false)
      else t1
  }

  function DoSetPosition(t: Tree, u: Subsurface, pos: Point): (r: Tree)
    requires Valid(t) && u in t.sub
    ensures r.shape == t.shape && Valid(r)
  {
    assert CacheOk(t.shape, u, t.sub[u]);
    if t.sub[u].pos == pos then t
    else PutSub(t, u, t.sub[u].(scheduledPos := pos, scheduledPosChange := true))
  }

  /** How the parent `p` sees the surface that a restacking request names. */
  function SiblingOf(sh: Shape, p: Surface, sibling: Surface): Sibling<Subsurface>
    requires ValidShape(sh) && sibling in sh.role
  {
    if sibling == p then TheParent
    else if sh.role[sibling] == null then NoSubsurface
    else Role(sh.role[sibling])
  }

  datatype Direction = Above | Below

  function Restacked(t: Tree, u: Subsurface, sibling: Surface, dir: Direction): Outcome<Subsurface>
    requires Valid(t) && u in t.sub && sibling in t.surf && t.shape.parent[u] != null
  {
    assert SubsurfaceOk(t.shape, u);
    var p := t.shape.parent[u];
    var list, at := t.surf[p].pending.children, SiblingOf(t.shape, p, sibling);
    if dir == Above then Raise(list, u, at) else Lower(list, u, at)
  }

  /** `placeAbove` and `placeBelow`. A failing call posts an error and changes nothing. */
  function DoPlace(t: Tree, u: Subsurface, sibling: Surface, dir: Direction): (r: Tree)
    requires Valid(t) && u in t.sub && sibling in t.surf
    ensures r.shape == t.shape && Valid(r)
  {
    if t.shape.parent[u] == null then t
    else
      assert SubsurfaceOk(t.shape, u);
      var p, o := t.shape.parent[u], Restacked(t, u, sibling, dir);
      SourceIsOk(t, p, FromPending);
      var rec := t.surf[p];
      RaiseRestacks(rec.pending.children, u, SiblingOf(t.shape, p, sibling));
      LowerRestacks(rec.pending.children, u, SiblingOf(t.shape, p, sibling));
      if !o.changed then t
      else
        PutSurface(t, p, rec.(pending := rec.pending.(
          children := o.list, updates := rec.pending.updates + {ChildrenSet})))
  }

  // ---------------------------------------------------------------- runs

  datatype Op =
    | CreateSurface(s: Surface)
    | CreateSubsurface(u: Subsurface, s: Surface, p: Surface)
    | DestroySurface(s: Surface)
    | DestroySubsurface(u: Subsurface)
    | StateRequest(s: Surface, request: Request)
    | CommitSurface(s: Surface)
    | SetMode(u: Subsurface, mode: Mode)
    | SetPosition(u: Subsurface, pos: Point)
    | Place(u: Subsurface, sibling: Surface, dir: Direction)
    | BufferGone(s: Surface, buffer: Buffer)
    | FrameRendered(s: Surface)
    | LockPresentation(s: Surface, output: nat)
    | AnswerPresentation(s: Surface, id: nat, presented: bool)
    | OutputGone(s: Surface, id: nat)
    | FeedbackGone(s: Surface, place: Place, feedback: nat)

  /** A buffer object that no state of the surface holds. */
  predicate NewBuffer(t: Tree, s: Surface, b: Buffer)
    requires Valid(t) && s in t.surf
  {
    assert RoleOk(t.shape, s);
    && t.surf[s].current.buffer != Some(b)
    && t.surf[s].pending.buffer != Some(b)
    && (t.shape.role[s] != null ==> t.sub[t.shape.role[s]].cached.buffer != Some(b))
  }

  /** What the code demands of its callers, operation by operation. */
  ghost predicate Enabled(t: Tree, op: Op) {
    && Valid(t)
    && match op
       case CreateSurface(s) => s !in t.surf
       case CreateSubsurface(u, s, p) =>
         u !in t.sub && s in t.surf && p in t.surf && t.shape.role[s] == null && !Under(t.shape, s, p)
       case DestroySurface(s) => s in t.surf
       case DestroySubsurface(u) => u in t.sub
       case StateRequest(s, r) =>
         s in t.surf && (r.Attach? && r.buffer.Some? ==> NewBuffer(t, s, r.buffer.value))
       case CommitSurface(s) => s in t.surf
       case SetMode(u, m) =>
         u in t.sub && (m == Desynchronized && t.shape.mode[u] != m ==> t.shape.parent[u] != null)
       case SetPosition(u, _) => u in t.sub
       case Place(u, sibling, _) => u in t.sub && sibling in t.surf
       case BufferGone(s, _) => s in t.surf
       case FrameRendered(s) => s in t.surf
       case LockPresentation(s, _) => s in t.surf
       case AnswerPresentation(s, id, _) => s in t.surf && id in t.surf[s].waiting
       case OutputGone(s, id) => s in t.surf && id in t.surf[s].waiting && t.surf[s].waiting[id].output.Some?
       case FeedbackGone(s, place, fb) => s in t.surf && fb in Held(t, s, place)
  }

  function Step(t: Tree, op: Op): (r: Tree)
    requires Enabled(t, op)
    ensures Valid(r)
  {
    hide Valid;
    match op
    case CreateSurface(s) => DoCreateSurface(t, s)
    case CreateSubsurface(u, s, p) => DoCreateSubsurface(t, u, s, p)
    case DestroySurface(s) => DoDestroySurface(t, s)
    case DestroySubsurface(u) => DoDestroySubsurface(t, u)
    case StateRequest(s, r) => DoRequest(t, s, r)
    case CommitSurface(s) => DoCommit(t, s)
    case SetMode(u, m) => DoSetMode(t, u, m)
    case SetPosition(u, pos) => DoSetPosition(t, u, pos)
    case Place(u, sibling, dir) => DoPlace(t, u, sibling, dir)
    case BufferGone(s, b) => DoBufferGone(t, s, b)
    case FrameRendered(s) => Render(t, s)
    case LockPresentation(s, output) => DoLock(t, s, output)
    case AnswerPresentation(s, id, presented) => DoAnswer(t, s, id, presented)
    case OutputGone(s, id) => DoOutputGone(t, s, id)
    case FeedbackGone(s, place, fb) => DoFeedbackGone(t, s, place, fb)
  }

  ghost predicate EnabledRun(t: Tree, ops: seq<Op>)
    decreases |ops|
  {
    ops == [] || (Enabled(t, ops[0]) && EnabledRun(Step(t, ops[0]), ops[1..]))
  }

  function Run(t: Tree, ops: seq<Op>): (r: Tree)
    requires Valid(t) && EnabledRun(t, ops)
    ensures Valid(r)
    decreases |ops|
  {
    if ops == [] then t else Run(Step(t, ops[0]), ops[1..])
  }

  // ---------------------------------------------------------------- the program

  /** The objects that make up one tree; `depth` and `bound` are the witness of `Shape`. */
  datatype Realm = Realm(surfaces: set<Surface>, subs: set<Subsurface>, depth: map<Surface, nat>, bound: nat)

  /** The tree that the objects of `w` hold. */
  ghost function Snap(w: Realm): Tree
    reads w.surfaces, w.subs
  {
    Tree(Shape(map s | s in w.surfaces :: s.subsurface,
               map u | u in w.subs :: u.surface,
               map u | u in w.subs :: u.parent,
               map u | u in w.subs :: u.mode,
               w.depth, w.bound),
         map s | s in w.surfaces :: s.Record(),
         map u | u in w.subs :: u.Record())
  }

  /** How much deeper the tree can get below `s`. */
  ghost function Room(w: Realm, s: Surface?): int {
    if s != null && s in w.depth then w.bound - w.depth[s] else 0
  }

  ghost predicate HeldSurface(t: Tree, s: Surface)
    reads s
  {
    s in t.surf && s in t.shape.role && s.subsurface == t.shape.role[s] && s.Record() == t.surf[s]
  }

  ghost predicate HeldSub(t: Tree, u: Subsurface)
    reads u
  {
    && u in t.sub && u in t.shape.surface && u in t.shape.parent && u in t.shape.mode
    && u.surface == t.shape.surface[u] && u.parent == t.shape.parent[u] && u.mode == t.shape.mode[u]
    && u.Record() == t.sub[u]
  }

  /** The objects hold the tree `t`, but perhaps for `s` and `u`. */
  ghost predicate HoldBut(w: Realm, t: Tree, s: Surface?, u: Subsurface?)
    reads w.surfaces, w.subs
  {
    && t.shape.depth == w.depth && t.shape.bound == w.bound
    && t.shape.role.Keys == t.surf.Keys == w.surfaces
    && t.shape.surface.Keys == t.shape.parent.Keys == t.shape.mode.Keys == t.sub.Keys == w.subs
    && (forall x {:trigger HeldSurface(t, x)} :: x in w.surfaces && x != s ==> HeldSurface(t, x))
    && (forall v {:trigger HeldSub(t, v)} :: v in w.subs && v != u ==> HeldSub(t, v))
  }

  /** The objects hold their own snapshot; stated for one surface and its role in particular. */
  lemma SnapHolds(w: Realm, s: Surface)
    requires s in w.surfaces
    ensures HoldBut(w, Snap(w), null, null)
    ensures HeldSurface(Snap(w), s)
    ensures s.subsurface != null && s.subsurface in w.subs ==> HeldSub(Snap(w), s.subsurface)
    ensures Valid(Snap(w)) && s.subsurface != null ==> s.subsurface in w.subs
    ensures Valid(Snap(w)) ==> s in w.depth && w.depth[s] < w.bound && ValidShape(Snap(w).shape)
  {
    if Valid(Snap(w)) { assert RoleOk(Snap(w).shape, s); }
  }

  /** The same, stated for one subsurface and its surface. */
  lemma SnapHoldsSub(w: Realm, u: Subsurface)
    requires u in w.subs
    ensures HoldBut(w, Snap(w), null, null)
    ensures HeldSub(Snap(w), u)
    ensures Valid(Snap(w)) ==> SubsurfaceOk(Snap(w).shape, u)
    ensures Valid(Snap(w)) && u.surface != null ==>
      && u.surface in w.surfaces && u.surface in w.depth && w.depth[u.surface] < w.bound
      && HeldSurface(Snap(w), u.surface)
  {
    if Valid(Snap(w)) { assert SubsurfaceOk(Snap(w).shape, u); }
  }

  lemma HeldIsSnap(w: Realm, t: Tree)
    requires HoldBut(w, t, null, null)
    ensures Snap(w) == t
  {
    forall x | x in w.surfaces ensures Snap(w).shape.role[x] == t.shape.role[x] && Snap(w).surf[x] == t.surf[x] {
      assert HeldSurface(t, x);
    }
    forall u | u in w.subs
      ensures Snap(w).shape.surface[u] == t.shape.surface[u] && Snap(w).shape.parent[u] == t.shape.parent[u]
      ensures Snap(w).shape.mode[u] == t.shape.mode[u] && Snap(w).sub[u] == t.sub[u]
    {
      assert HeldSub(t, u);
    }
    assert Snap(w).shape.role == t.shape.role;
    assert Snap(w).shape.surface == t.shape.surface;
    assert Snap(w).shape.parent == t.shape.parent;
    assert Snap(w).shape.mode == t.shape.mode;
    assert Snap(w).surf == t.surf;
    assert Snap(w).sub == t.sub;
  }

  lemma OnlySurface(w: Realm, t: Tree, s: Surface)
    requires s in w.surfaces && HoldBut(w, t, s, null) && s.subsurface == t.shape.role[s]
    ensures Snap(w) == t.(surf := t.surf[s := s.Record()])
  {
    var r := t.(surf := t.surf[s := s.Record()]);
    forall x | x in w.surfaces ensures HeldSurface(r, x) {
      if x != s { assert HeldSurface(t, x); }
    }
    forall v | v in w.subs ensures HeldSub(r, v) { assert HeldSub(t, v); }
    HeldIsSnap(w, r);
  }

  lemma OnlySub(w: Realm, t: Tree, u: Subsurface)
    requires u in w.subs && HoldBut(w, t, null, u)
    requires u.surface == t.shape.surface[u] && u.parent == t.shape.parent[u] && u.mode == t.shape.mode[u]
    ensures Snap(w) == t.(sub := t.sub[u := u.Record()])
  {
    var r := t.(sub := t.sub[u := u.Record()]);
    forall x | x in w.surfaces ensures HeldSurface(r, x) { assert HeldSurface(t, x); }
    forall v | v in w.subs ensures HeldSub(r, v) {
      if v != u { assert HeldSub(t, v); }
    }
    HeldIsSnap(w, r);
  }

  lemma OnlyPair(w: Realm, t: Tree, s: Surface, u: Subsurface)
    requires s in w.surfaces && u in w.subs && HoldBut(w, t, s, u) && s.subsurface == t.shape.role[s]
    requires u.surface == t.shape.surface[u] && u.parent == t.shape.parent[u] && u.mode == t.shape.mode[u]
    ensures Snap(w) == t.(surf := t.surf[s := s.Record()], sub := t.sub[u := u.Record()])
  {
    var r := t.(surf := t.surf[s := s.Record()], sub := t.sub[u := u.Record()]);
    forall x | x in w.surfaces ensures HeldSurface(r, x) {
      if x != s { assert HeldSurface(t, x); }
    }
    forall v | v in w.subs ensures HeldSub(r, v) {
      if v != u { assert HeldSub(t, v); }
    }
    HeldIsSnap(w, r);
  }

  lemma OnlyMode(w: Realm, t: Tree, u: Subsurface)
    requires Valid(t) && u in w.subs && HoldBut(w, t, null, u)
    requires u.surface == t.shape.surface[u] && u.parent == t.shape.parent[u] && u.Record() == t.sub[u]
    ensures Snap(w) == PutMode(t, u, u.mode)
  {
    var r := PutMode(t, u, u.mode);
    forall x | x in w.surfaces ensures HeldSurface(r, x) { assert HeldSurface(t, x); }
    forall v | v in w.subs ensures HeldSub(r, v) {
      if v != u { assert HeldSub(t, v); }
    }
    HeldIsSnap(w, r);
  }

  lemma CachesOk(t: Tree, u: Subsurface)
    requires Valid(t) && u in t.sub
    ensures u in t.shape.surface && CacheOk(t.shape, u, t.sub[u])
  {
  }

  lemma SameRecord(t: Tree, s: Surface)
    requires s in t.surf
    ensures t.(surf := t.surf[s := t.surf[s]]) == t
  {
    assert t.surf[s := t.surf[s]] == t.surf;
  }

  /** What `DoCreateSubsurface` asks for. */
  ghost predicate Joins(t: Tree, u: Subsurface, s: Surface, p: Surface) {
    && Valid(t) && u !in t.sub && s in t.surf && p in t.surf
    && t.shape.role[s] == null && !Under(t.shape, s, p)
  }

  /** The objects of a tree that `u` joins. */
  ghost function Enlarged(w: Realm, t: Tree, u: Subsurface, s: Surface, p: Surface): Realm
    requires Joins(t, u, s, p)
  {
    var sh := Attached(t.shape, u, s, p);
    Realm(w.surfaces, w.subs + {u}, sh.depth, sh.bound)
  }

  lemma JoinedIs(w: Realm, t: Tree, u: Subsurface, s: Surface, p: Surface)
    requires Joins(t, u, s, p)
    ensures
      var j, w1 := Joined(t, u, s, p), Enlarged(w, t, u, s, p);
      && j.surf == t.surf && j.sub == t.sub[u := SubRec(Point(0, 0), Point(0, 0), false, Blank([]))]
      && j.shape.role == t.shape.role[s := u] && j.shape.surface == t.shape.surface[u := s]
      && j.shape.parent == t.shape.parent[u := p] && j.shape.mode == t.shape.mode[u := Synchronized]
      && w1.surfaces == w.surfaces && w1.subs == w.subs + {u}
      && w1.depth == j.shape.depth && w1.bound == j.shape.bound
  {
    hide Under;
  }

  lemma HoldsJoined(w: Realm, t: Tree, u: Subsurface, s: Surface, p: Surface)
    requires Joins(t, u, s, p)
    requires t.shape.role.Keys == t.surf.Keys == w.surfaces
    requires t.shape.surface.Keys == t.shape.parent.Keys == t.shape.mode.Keys == t.sub.Keys == w.subs
    requires forall x {:trigger HeldSurface(t, x)} :: x in w.surfaces && x != s ==> HeldSurface(t, x)
    requires forall v {:trigger HeldSub(t, v)} :: v in w.subs ==> HeldSub(t, v)
    requires s.subsurface == u && s.Record() == t.surf[s]
    requires u.surface == s && u.parent == p && u.mode == Synchronized
    requires u.Record() == SubRec(Point(0, 0), Point(0, 0), false, Blank([]))
    ensures Snap(Enlarged(w, t, u, s, p)) == Joined(t, u, s, p)
    ensures HoldBut(Enlarged(w, t, u, s, p), Joined(t, u, s, p), null, null)
  {
    hide Joined, Enlarged, Valid, Blank, Under, Snap, HeldSurface, HeldSub;
    JoinedIs(w, t, u, s, p);
    var j, w1 := Joined(t, u, s, p), Enlarged(w, t, u, s, p);
    forall x | x in w1.surfaces ensures HeldSurface(j, x) { JoinedSurface(t, j, x, s, u); }
    forall v | v in w1.subs ensures HeldSub(j, v) { JoinedSub(t, j, v, u, s, p); }
    HeldIsSnap(w1, j);
  }

  lemma JoinedSurface(t: Tree, j: Tree, x: Surface, s: Surface, u: Subsurface)
    requires x != s ==> HeldSurface(t, x)
    requires j.surf == t.surf && j.shape.role == t.shape.role[s := u] && x in t.surf
    requires s.subsurface == u && s in t.surf && s.Record() == t.surf[s]
    ensures HeldSurface(j, x)
  {
  }

  lemma JoinedSub(t: Tree, j: Tree, v: Subsurface, u: Subsurface, s: Surface, p: Surface)
    requires v != u ==> HeldSub(t, v)
    requires u.surface == s && u.parent == p && u.mode == Synchronized
    requires u.Record() == SubRec(Point(0, 0), Point(0, 0), false, Blank([]))
    requires j.sub == t.sub[u := SubRec(Point(0, 0), Point(0, 0), false, Blank([]))]
    requires j.shape.surface == t.shape.surface[u := s] && j.shape.parent == t.shape.parent[u := p]
    requires j.shape.mode == t.shape.mode[u := Synchronized]
    ensures HeldSub(j, v)
  {
  }

  /** The heap after `addChild` holds the tree after `ChildAdded`. */
  lemma HoldsAdded(w: Realm, t: Tree, p: Surface, u: Subsurface)
    requires Valid(t) && p in t.surf && u in t.sub && p in w.surfaces
    requires t.shape.parent[u] == p && t.shape.surface[u] != null
    requires u !in t.surf[p].pending.children && u !in CachedChildren(t, p)
    requires HoldBut(w, t, p, t.shape.role[p]) && p.subsurface == t.shape.role[p]
    requires
      var a := t.surf[p];
      p.Record() == a.(pending := a.pending.(children := a.pending.children + [u],
                                             updates := a.pending.updates + {ChildrenSet}))
    requires
      var v := t.shape.role[p];
      v != null ==>
        && v in t.sub && v in w.subs
        && v.surface == t.shape.surface[v] && v.parent == t.shape.parent[v] && v.mode == t.shape.mode[v]
        && v.Record() == t.sub[v].(cached := t.sub[v].cached.(children := t.sub[v].cached.children + [u]))
    ensures Snap(w) == ChildAdded(t, p, u)
  {
    if t.shape.role[p] != null { OnlyPair(w, t, p, t.shape.role[p]); } else { OnlySurface(w, t, p); }
  }

  /** The heap after `removeChild` holds the tree after `ChildRemoved`. */
  lemma HoldsRemoved(w: Realm, t: Tree, p: Surface, u: Subsurface)
    requires Valid(t) && p in t.surf && p in w.surfaces
    requires HoldBut(w, t, p, t.shape.role[p]) && p.subsurface == t.shape.role[p]
    requires
      var a := t.surf[p];
      p.Record() == a.(pending := a.pending.(children := Without(a.pending.children, u)),
                       current := a.current.(children := Without(a.current.children, u)))
    requires
      var v := t.shape.role[p];
      v != null ==>
        && v in t.sub && v in w.subs
        && v.surface == t.shape.surface[v] && v.parent == t.shape.parent[v] && v.mode == t.shape.mode[v]
        && v.Record() == t.sub[v].(cached := t.sub[v].cached.(children := Without(t.sub[v].cached.children, u)))
    ensures Snap(w) == ChildRemoved(t, p, u)
  {
    if t.shape.role[p] != null { OnlyPair(w, t, p, t.shape.role[p]); } else { OnlySurface(w, t, p); }
  }

  lemma DropCacheIs(t: Tree, u: Subsurface)
    requires Valid(t) && u in t.sub
    ensures
      var s := t.shape.surface[u];
      && (s != null ==> s in t.surf)
      && DropCache(t, u) ==
         if s == null then t
         else t.(surf := t.surf[s := t.surf[s].(sent := t.surf[s].sent + DropEvents(t.sub[u].cached.feedbacks))])
  {
    assert SubsurfaceOk(t.shape, u);
  }

  lemma ForgetIs(t: Tree, u: Subsurface)
    requires Valid(t) && u in t.sub && NowhereListed(t, u)
    ensures
      var r, s := Forget(t, u), t.shape.surface[u];
      && r.surf == t.surf && r.sub == t.sub - {u} && r.shape.depth == t.shape.depth && r.shape.bound == t.shape.bound
      && r.shape.role == (if s == null then t.shape.role else t.shape.role[s := null])
      && r.shape.surface == t.shape.surface - {u} && r.shape.parent == t.shape.parent - {u}
      && r.shape.mode == t.shape.mode - {u}
      && (s != null ==> s in t.shape.role)
  {
    assert SubsurfaceOk(t.shape, u);
  }

  /** Once its surface has given up the role, the objects without `u` hold the tree without it. */
  lemma HoldsForgotten(w: Realm, t: Tree, u: Subsurface)
    requires Valid(t) && u in t.sub && NowhereListed(t, u) && u in w.subs
    requires t.shape.depth == w.depth && t.shape.bound == w.bound
    requires t.shape.role.Keys == t.surf.Keys == w.surfaces
    requires t.shape.surface.Keys == t.shape.parent.Keys == t.shape.mode.Keys == t.sub.Keys == w.subs
    requires forall x {:trigger HeldSurface(t, x)} ::
      x in w.surfaces && x != t.shape.surface[u] ==> HeldSurface(t, x)
    requires t.shape.surface[u] != null ==>
      var s := t.shape.surface[u];
      s in t.surf && s.subsurface == null && s.Record() == t.surf[s]
    requires forall v {:trigger HeldSub(t, v)} :: v in w.subs ==> HeldSub(t, v)
    ensures Snap(w.(subs := w.subs - {u})) == Forget(t, u)
  {
    hide Valid, Forget, NowhereListed;
    ForgetIs(t, u);
    var r, w1 := Forget(t, u), w.(subs := w.subs - {u});
    forall x | x in w1.surfaces ensures HeldSurface(r, x) {
      if x != t.shape.surface[u] { assert HeldSurface(t, x); }
    }
    forall v | v in w1.subs ensures HeldSub(r, v) { assert HeldSub(t, v); }
    HeldIsSnap(w1, r);
  }

  /** What stays of a subsurface when the surface `s` goes. */
  ghost predicate LeftBehind(t: Tree, s: Surface, v: Subsurface)
    requires s in t.surf && s in t.shape.role
    reads v
  {
    var u, own := t.shape.role[s], t.surf[s];
    && v in t.sub && v in t.shape.surface && v in t.shape.parent && v in t.shape.mode
    && v.mode == t.shape.mode[v] && v.Record() == t.sub[v]
    && v.surface == (if v == u then null else t.shape.surface[v])
    && v.parent == (if v == u || v in own.current.children || v in own.pending.children
                    then null else t.shape.parent[v])
  }

  lemma BuryIs(t: Tree, s: Surface)
    requires Valid(t) && s in t.surf
    requires t.shape.role[s] != null ==> NowhereListed(t, t.shape.role[s])
    ensures
      var r, u, own := Adrift(Bury(t, s), Strays(t, s), s), t.shape.role[s], t.surf[s];
      && r.surf == t.surf - {s} && r.sub == t.sub
      && r.shape.depth == t.shape.depth - {s} && r.shape.bound == t.shape.bound
      && r.shape.role == t.shape.role - {s} && r.shape.mode == t.shape.mode
      && (u != null ==> u in t.sub)
      && r.shape.surface == (if u == null then t.shape.surface else t.shape.surface[u := null])
      && r.shape.parent.Keys == t.shape.parent.Keys
      && forall v :: v in t.shape.parent ==>
           r.shape.parent[v] == (if v == u || v in own.current.children || v in own.pending.children
                                 then null else t.shape.parent[v])
  {
    assert RoleOk(t.shape, s);
    SourceIsOk(t, s, FromPending);
    if t.shape.role[s] != null { assert SubsurfaceOk(t.shape, t.shape.role[s]); }
  }

  /** A surface that leaves its parent keeps its own children. */
  lemma DetachKeepsChildren(t: Tree, s: Surface)
    requires Valid(t) && s in t.surf && t.shape.role[s] != null
    ensures t.shape.role[s] in t.sub
    ensures
      var d := Detach(t, t.shape.role[s]);
      s in d.surf && Strays(d, s) == Strays(t, s) && NowhereListed(d, t.shape.role[s])
  {
    hide NowhereListed;
    assert RoleOk(t.shape, s) && SubsurfaceOk(t.shape, t.shape.role[s]);
    assert Detach(t, t.shape.role[s]).surf[s] == t.surf[s];
  }

  /** A surface and its snapshot: the lists name subsurfaces of the realm. */
  lemma ListsAreHeld(w: Realm, s: Surface)
    requires s in w.surfaces && Valid(Snap(w))
    ensures HoldBut(w, Snap(w), null, null)
    ensures s in Snap(w).surf && s in Snap(w).shape.role && Snap(w).shape.role[s] == s.subsurface
    ensures Snap(w).surf[s] == s.Record()
    ensures s.subsurface != null ==> s.subsurface in w.subs
    ensures forall c :: c in s.current.children || c in s.pending.children ==> c in w.subs
  {
    SnapHolds(w, s);
    SourceIsOk(Snap(w), s, FromPending);
  }

  lemma HoldsBuried(w: Realm, t: Tree, s: Surface)
    requires Valid(t) && s in t.surf
    requires t.shape.role[s] != null ==> NowhereListed(t, t.shape.role[s])
    requires t.shape.depth == w.depth && t.shape.bound == w.bound
    requires t.shape.role.Keys == t.surf.Keys == w.surfaces
    requires t.shape.surface.Keys == t.shape.parent.Keys == t.shape.mode.Keys == t.sub.Keys == w.subs
    requires forall x {:trigger HeldSurface(t, x)} :: x in w.surfaces && x != s ==> HeldSurface(t, x)
    requires forall v {:trigger LeftBehind(t, s, v)} :: v in w.subs ==> LeftBehind(t, s, v)
    ensures Snap(w.(surfaces := w.surfaces - {s}, depth := w.depth - {s})) == Adrift(Bury(t, s), Strays(t, s), s)
  {
    hide Valid, Bury, NowhereListed, Strays, Adrift;
    BuryIs(t, s);
    var r, w1 := Adrift(Bury(t, s), Strays(t, s), s), w.(surfaces := w.surfaces - {s}, depth := w.depth - {s});
    forall x | x in w1.surfaces ensures HeldSurface(r, x) { assert HeldSurface(t, x); }
    forall v | v in w1.subs ensures HeldSub(r, v) { assert LeftBehind(t, s, v); }
    HeldIsSnap(w1, r);
  }

  lemma MarkMark(t: Tree, a: set<Surface>, b: set<Surface>)
    requires Valid(t)
    ensures Mark(Mark(t, a), b) == Mark(t, a + b)
  {
    assert Mark(Mark(t, a), b).surf == Mark(t, a + b).surf;
  }

  /** Marking `s` and then what is above it. */
  lemma MarkHere(t: Tree, s: Surface)
    requires Valid(t) && s in t.surf
    ensures
      var here := t.(surf := t.surf[s := WithUpdate(t.surf[s], ChildrenSet)]);
      && Valid(here)
      && Mark(here, MarkedAbove(t.shape, s)) == Mark(t, {s} + MarkedAbove(t.shape, s))
  {
    MarkOne(t, s);
    MarkMark(t, {s}, MarkedAbove(t.shape, s));
  }

  /** The marks above `s`, seen from its parent. */
  lemma MarkAboveStep(t: Tree, s: Surface)
    requires Valid(t) && s in t.surf
    ensures
      var u := t.shape.role[s];
      && (u != null ==> u in t.sub)
      && if u != null && IsSync(t.shape, u) && t.shape.parent[u] != null then
           var p := t.shape.parent[u];
           && p in t.surf && p in t.shape.depth && s in t.shape.depth && t.shape.depth[p] < t.shape.depth[s]
           && Mark(t, {p} + MarkedAbove(t.shape, p)) == Mark(t, MarkedAbove(t.shape, s))
         else
           Mark(t, MarkedAbove(t.shape, s)) == t
  {
    assert RoleOk(t.shape, s);
    var u := t.shape.role[s];
    if u != null && IsSync(t.shape, u) && t.shape.parent[u] != null {
      assert SubsurfaceOk(t.shape, u);
    } else {
      MarkNone(t);
    }
  }

  lemma MarkOne(t: Tree, s: Surface)
    requires Valid(t) && s in t.surf
    ensures Mark(t, {s}) == t.(surf := t.surf[s := WithUpdate(t.surf[s], ChildrenSet)])
  {
    assert Mark(t, {s}).surf == t.surf[s := WithUpdate(t.surf[s], ChildrenSet)];
  }

  lemma MarkNone(t: Tree)
    requires Valid(t)
    ensures Mark(t, {}) == t
  {
    assert Mark(t, {}).surf == t.surf;
  }

  lemma BufferedOk(t: Tree, s: Surface, source: SurfaceState)
    requires Valid(t) && s in t.surf
    ensures
      var buffered := t.surf[s].(current := Buffered(t.surf[s].current, source));
      && SurfaceOk(t.shape, s, buffered)
      && PutSurface(t, s, buffered) == t.(surf := t.surf[s := buffered])
      && Valid(PutSurface(t, s, buffered))
      && Mark(PutSurface(t, s, buffered), {}) == PutSurface(t, s, buffered)
  {
    SourceIsOk(t, s, FromPending);
    MarkNone(PutSurface(t, s, t.surf[s].(current := Buffered(t.surf[s].current, source))));
  }

  /** The second half of a patch. */
  function Rest(cur: SurfaceState, src: SurfaceState, before: bool, scaleChanged: bool): SurfaceState {
    var c := Copied(cur, src);
    var copied := CopyResizes(before, c.buffer.Some?, src);
    var resized := if scaleChanged then c.buffer.Some? else copied;
    c.(updates := if resized then c.updates + {Resized} else c.updates, feedbacks := src.feedbacks)
  }

  lemma PatchedInTwo(cur: SurfaceState, src: SurfaceState)
    ensures Patched(cur, src) == Rest(Buffered(cur.(updates := src.updates), src), src, BufferResizes(cur, src),
                                      ScaleSet in src.updates && cur.scale != src.scale)
    ensures BufferResizes(cur.(updates := src.updates), src) == BufferResizes(cur, src)
    ensures Buffered(cur.(updates := src.updates), src).feedbacks == cur.feedbacks
  {
  }

  /** `applyCached(force)` on one subsurface. */
  function Apply(t: Tree, c: Subsurface, force: bool): (r: Tree)
    requires Valid(t) && c in t.sub && t.shape.surface[c] != null
    ensures r.shape == t.shape && Valid(r)
  {
    assert SubsurfaceOk(t.shape, c);
    var s, visited := t.shape.surface[c], Visit(t, c, force);
    SourceIsOk(visited, s, FromPending);
    Walk(visited, s, visited.surf[s].current.children, force || IsSync(t.shape, c))
  }

  lemma PositionedOk(t: Tree, c: Subsurface)
    requires Valid(t) && c in t.sub
    ensures CacheOk(t.shape, c, Positioned(t.sub[c]))
    ensures PutSub(t, c, Positioned(t.sub[c])) == t.(sub := t.sub[c := Positioned(t.sub[c])])
    ensures Valid(t.(sub := t.sub[c := Positioned(t.sub[c])]))
  {
    assert CacheOk(t.shape, c, t.sub[c]);
    assert Valid(PutSub(t, c, Positioned(t.sub[c])));
  }

  lemma RenderNothing(t: Tree, p: Surface)
    requires Valid(t) && p in t.surf
    ensures RenderAll(t, p, []) == t
  {
  }

  lemma DrainedOk(t: Tree, s: Surface)
    requires Valid(t) && s in t.surf
    ensures SurfaceOk(t.shape, s, Drained(t.surf[s])) && SurfaceOk(t.shape, s, t.surf[s])
    ensures Valid(t.(surf := t.surf[s := Drained(t.surf[s])]))
  {
    SourceIsOk(t, s, FromPending);
    assert Valid(PutSurface(t, s, Drained(t.surf[s])));
  }

  lemma RenderIs(t: Tree, s: Surface)
    requires Valid(t) && s in t.surf
    requires Valid(t.(surf := t.surf[s := Drained(t.surf[s])]))
    requires ChildrenOk(t.shape, s, t.surf[s].current.children)
    ensures Render(t, s) == RenderAll(t.(surf := t.surf[s := Drained(t.surf[s])]), s, t.surf[s].current.children)
  {
    hide RenderAll;
    SourceIsOk(t, s, FromPending);
  }

  lemma RenderHead(t: Tree, p: Surface, list: seq<Subsurface>)
    requires Valid(t) && p in t.surf && ChildrenOk(t.shape, p, list) && list != []
    ensures list[0] in t.sub && t.shape.surface[list[0]] != null && t.shape.surface[list[0]] in t.surf
    ensures t.shape.surface[list[0]] in t.shape.depth && p in t.shape.depth
    ensures t.shape.depth[p] < t.shape.depth[t.shape.surface[list[0]]] < t.shape.bound
    ensures ChildrenOk(t.shape, p, list[1..])
    ensures RenderAll(t, p, list) == RenderAll(Render(t, t.shape.surface[list[0]]), p, list[1..])
  {
    assert SubsurfaceOk(t.shape, list[0]);
  }

  /** Rendering leaves every children list alone. */
  lemma RenderKeepsLists(t: Tree, s: Surface, x: Surface)
    requires Valid(t) && s in t.surf && x in t.surf
    ensures Render(t, s).surf[x].current.children == t.surf[x].current.children
    decreases t.shape.bound - (if s in t.shape.depth then t.shape.depth[s] else 0), 1, 0
  {
    SourceIsOk(t, s, FromPending);
    RenderAllKeepsLists(PutSurface(t, s, Drained(t.surf[s])), s, t.surf[s].current.children, x);
  }

  lemma {:induction false} RenderAllKeepsLists(t: Tree, p: Surface, list: seq<Subsurface>, x: Surface)
    requires Valid(t) && p in t.surf && ChildrenOk(t.shape, p, list) && x in t.surf
    ensures RenderAll(t, p, list).surf[x].current.children == t.surf[x].current.children
    decreases t.shape.bound - (if p in t.shape.depth then t.shape.depth[p] else 0), 0, |list|
  {
    if list != [] {
      assert SubsurfaceOk(t.shape, list[0]);
      RenderKeepsLists(t, t.shape.surface[list[0]], x);
      RenderAllKeepsLists(Render(t, t.shape.surface[list[0]]), p, list[1..], x);
    }
  }

  lemma WalkNothing(t: Tree, p: Surface, force: bool)
    requires Valid(t) && p in t.surf
    ensures Walk(t, p, [], force) == t
  {
  }

  /** A walk handles its list one child after the other. */
  lemma WalkHead(t: Tree, p: Surface, list: seq<Subsurface>, force: bool)
    requires Valid(t) && p in t.surf && ChildrenOk(t.shape, p, list) && list != []
    ensures list[0] in t.sub && t.shape.surface[list[0]] != null
    ensures t.shape.surface[list[0]] in t.shape.depth && p in t.shape.depth
    ensures t.shape.depth[p] < t.shape.depth[t.shape.surface[list[0]]] < t.shape.bound
    ensures ChildrenOk(t.shape, p, list[1..])
    ensures Walk(t, p, list, force) == Walk(Apply(t, list[0], force), p, list[1..], force)
  {
    assert SubsurfaceOk(t.shape, list[0]);
  }

  /** A walk below `p` leaves the children lists of `p`, and of all that is no deeper, alone. */
  lemma {:induction false} WalkKeepsLists(t: Tree, p: Surface, list: seq<Subsurface>, force: bool, x: Surface)
    requires Valid(t) && p in t.surf && ChildrenOk(t.shape, p, list) && x in t.surf
    requires x in t.shape.depth && p in t.shape.depth && t.shape.depth[x] <= t.shape.depth[p]
    ensures Walk(t, p, list, force).surf[x].current.children == t.surf[x].current.children
    decreases t.shape.bound - t.shape.depth[p], 0, |list|
  {
    if list != [] {
      hide Walk, Apply;
      WalkHead(t, p, list, force);
      ApplyKeepsLists(t, list[0], force, x);
      WalkKeepsLists(Apply(t, list[0], force), p, list[1..], force, x);
    } else {
      WalkNothing(t, p, force);
    }
  }

  lemma VisitKeepsLists(t: Tree, c: Subsurface, force: bool, x: Surface)
    requires Valid(t) && c in t.sub && t.shape.surface[c] != null && x in t.surf && x != t.shape.surface[c]
    ensures Visit(t, c, force).surf[x].current.children == t.surf[x].current.children
  {
    hide Patched, Positioned, SurfaceOk, CacheOk;
    assert SubsurfaceOk(t.shape, c);
  }

  lemma ApplyKeepsLists(t: Tree, c: Subsurface, force: bool, x: Surface)
    requires Valid(t) && c in t.sub && t.shape.surface[c] != null && x in t.surf
    requires x in t.shape.depth && t.shape.surface[c] in t.shape.depth
    requires t.shape.depth[x] < t.shape.depth[t.shape.surface[c]]
    ensures Apply(t, c, force).surf[x].current.children == t.surf[x].current.children
    decreases t.shape.bound - t.shape.depth[t.shape.surface[c]], 1, 0
  {
    hide Visit;
    assert SubsurfaceOk(t.shape, c);
    var s, visited := t.shape.surface[c], Visit(t, c, force);
    SourceIsOk(visited, s, FromPending);
    VisitKeepsLists(t, c, force, x);
    WalkKeepsLists(visited, s, visited.surf[s].current.children, force || IsSync(t.shape, c), x);
  }

  /** The update flags of the current state can be anything. */
  lemma FlagsOk(t: Tree, s: Surface, updates: set<Change>)
    requires Valid(t) && s in t.surf
    ensures
      var rec := t.surf[s].(current := t.surf[s].current.(updates := updates));
      SurfaceOk(t.shape, s, rec) && Valid(t.(surf := t.surf[s := rec]))
  {
    SourceIsOk(t, s, FromPending);
    assert PutSurface(t, s, t.surf[s].(current := t.surf[s].current.(updates := updates))).shape == t.shape;
  }

  /** The tree in the middle of an update: flags and buffer are taken, the surfaces above are told. */
  function Halfway(t: Tree, s: Surface, src: SurfaceState): (r: Tree)
    requires Valid(t) && s in t.surf
    ensures r.shape == t.shape && r.surf.Keys == t.surf.Keys && r.sub == t.sub
  {
    FlagsOk(t, s, src.updates);
    var flagged := t.surf[s].(current := t.surf[s].current.(updates := src.updates));
    var t1 := t.(surf := t.surf[s := flagged]);
    BufferedOk(t1, s, src);
    Mark(PutSurface(t1, s, flagged.(current := Buffered(flagged.current, src))),
         if Unmaps(src) then MarkedAbove(t.shape, s) else {})
  }

  lemma MeetHalfway(t: Tree, s: Surface, src: SurfaceState)
    requires Valid(t) && s in t.surf
    ensures
      var flagged := t.surf[s].(current := t.surf[s].current.(updates := src.updates));
      var t1 := t.(surf := t.surf[s := flagged]);
      && Valid(t1) && SurfaceOk(t1.shape, s, flagged.(current := Buffered(flagged.current, src)))
      && Halfway(t, s, src) == Mark(PutSurface(t1, s, flagged.(current := Buffered(flagged.current, src))),
                                    if Unmaps(src) then MarkedAbove(t.shape, s) else {})
  {
    FlagsOk(t, s, src.updates);
    var flagged := t.surf[s].(current := t.surf[s].current.(updates := src.updates));
    BufferedOk(t.(surf := t.surf[s := flagged]), s, src);
  }

  lemma HalfwayHere(t: Tree, s: Surface, src: SurfaceState)
    requires Valid(t) && s in t.surf
    ensures Halfway(t, s, src).surf[s]
            == t.surf[s].(current := Buffered(t.surf[s].current.(updates := src.updates), src))
  {
    assert s !in MarkedAbove(t.shape, s);
  }

  /** Writing the patched record over the halfway tree, and resetting the source, makes the own update. */
  lemma HalfwayToOwn(t: Tree, s: Surface, from: Source)
    requires Valid(t) && s in t.surf
    requires from == FromCached ==> t.shape.role[s] != null
    ensures from == FromCached ==> t.shape.role[s] in t.sub
    ensures
      var src, u := SourceState(t, s, from), t.shape.role[s];
      var half, taken := Halfway(t, s, src), Taken(t.surf[s], src);
      var blank, done := Blank(taken.current.children), half.(surf := half.surf[s := taken]);
      Own(t, s, from) ==
      if from == FromPending then done.(surf := done.surf[s := done.surf[s].(pending := blank)])
      else done.(sub := done.sub[u := done.sub[u].(cached := blank)])
  {
    hide Patched, Buffered, SurfaceOk, CacheOk, ValidShape;
    SourceIsOk(t, s, from);
    var src, u := SourceState(t, s, from), t.shape.role[s];
    var half, taken := Halfway(t, s, src), Taken(t.surf[s], src);
    var blank := Blank(taken.current.children);
    var own := if from == FromPending then taken.(pending := blank) else taken;
    TakenOk(t.shape, s, t.surf[s], src);
    HalfwayElsewhere(t, s, src, own);
    assert half.surf[s := taken][s := own] == half.surf[s := own];
    if from == FromCached { assert Own(t, s, from).sub == t.sub[u := t.sub[u].(cached := blank)]; }
  }

  lemma TakenOk(sh: Shape, s: Surface, rec: SurfaceRec, src: SurfaceState)
    requires SurfaceOk(sh, s, rec) && SourceOk(sh, s, src)
    ensures
      var taken := Taken(rec, src);
      SurfaceOk(sh, s, taken) && SurfaceOk(sh, s, taken.(pending := Blank(taken.current.children)))
  {
  }

  lemma HalfwayElsewhere(t: Tree, s: Surface, src: SurfaceState, own: SurfaceRec)
    requires Valid(t) && s in t.surf && SurfaceOk(t.shape, s, own)
    ensures Mark(PutSurface(t, s, own), if Unmaps(src) then MarkedAbove(t.shape, s) else {}).surf
            == Halfway(t, s, src).surf[s := own]
  {
    hide Buffered, SurfaceOk, CacheOk, ValidShape;
    var marked := if Unmaps(src) then MarkedAbove(t.shape, s) else {};
    assert s !in marked;
    var a, b := Mark(PutSurface(t, s, own), marked).surf, Halfway(t, s, src).surf[s := own];
    forall x | x in t.surf ensures a[x] == b[x] {
    }
  }

  class Surface {
    var current: SurfaceState
    var pending: SurfaceState
    var subsurface: Subsurface?
    var feedbackId: nat
    var waitingFeedbacks: map<nat, Feedbacks>
    var sent: seq<Event>

    ghost function Record(): SurfaceRec
      reads this
    {
      SurfaceRec(current, pending, feedbackId, waitingFeedbacks, sent)
    }

    /** `wl_compositor.create_surface`. */
    constructor ()
      ensures subsurface == null && Record() == SurfaceRec(Blank([]), Blank([]), 0, map[], [])
    {
      current, pending := Blank([]), Blank([]);
      subsurface, feedbackId, waitingFeedbacks, sent := null, 0, map[], [];
    }

    /** The subsurface object of this surface, if it has the role. */
    ghost function RoleObject(): set<Subsurface>
      reads this
    {
      if subsurface == null then {} else {subsurface}
    }

    /** The surface is destroyed: its role turns inert, and the children its lists name lose their
        parent. Any other child keeps a pointer to an object that is gone. */
    method Destroy(ghost w: Realm)
      requires this in w.surfaces && Valid(Snap(w))
      modifies w.surfaces, w.subs
      ensures this in old(Snap(w)).surf
      ensures Snap(w.(surfaces := w.surfaces - {this}, depth := w.depth - {this}))
              == Adrift(DoDestroySurface(old(Snap(w)), this), Strays(old(Snap(w)), this), this)
    {
      hide Snap, Valid, Detach, Bury, NowhereListed, Strays, Adrift;
      ghost var t := Snap(w);
      SnapHolds(w, this);
      if subsurface != null {
        DetachKeepsChildren(t, this);
        subsurface.LeaveParent(w);
        SnapHolds(w, this);
      }
      Orphan(w);
    }

    method Orphan(ghost w: Realm)
      requires this in w.surfaces && Valid(Snap(w))
      requires subsurface != null ==> NowhereListed(Snap(w), subsurface)
      modifies w.subs
      ensures
        var t := old(Snap(w));
        && this in t.surf
        && (t.shape.role[this] != null ==> NowhereListed(t, t.shape.role[this]))
        && Snap(w.(surfaces := w.surfaces - {this}, depth := w.depth - {this}))
           == Adrift(Bury(t, this), Strays(t, this), this)
    {
      hide Snap, Valid, Bury, NowhereListed, Strays, Adrift;
      ghost var t := Snap(w);
      ListsAreHeld(w, this);
      ClearPointers(w.subs);
      forall v | v in w.subs ensures LeftBehind(t, this, v) { assert old(HeldSub(t, v)); }
      hide LeftBehind, HeldSub;
      HoldsBuried(w, t, this);
    }

    method ClearPointers(ghost subs: set<Subsurface>)
      requires subsurface != null ==> subsurface in subs
      requires forall c :: c in current.children || c in pending.children ==> c in subs
      modifies subs`parent, subs`surface
      ensures forall v :: v in subs ==>
        && v.surface == (if v == subsurface then null else old(v.surface))
        && v.parent == (if v == subsurface || v in current.children || v in pending.children
                        then null else old(v.parent))
    {
      if subsurface != null {
        subsurface.parent := null;
        subsurface.surface := null;
      }
      OrphanAll(current.children, subs);
      OrphanAll(pending.children, subs);
    }

    static method OrphanAll(children: seq<Subsurface>, ghost subs: set<Subsurface>)
      requires forall c :: c in children ==> c in subs
      modifies subs`parent
      ensures forall u :: u in subs ==> u.parent == if u in children then null else old(u.parent)
    {
      for i := 0 to |children|
        invariant forall u :: u in subs ==> u.parent == if u in children[..i] then null else old(u.parent)
      {
        children[i].parent := null;
        assert children[..i + 1] == children[..i] + [children[i]];
      }
      assert children[..|children|] == children;
    }

    // Requests that only write the pending state.

    method AttachBuffer(buffer: Option<Buffer>, offset: Point)
      modifies this`pending
      ensures pending == Requested(old(pending), Request.Attach(buffer, offset))
    {
      pending := pending.(updates := pending.updates + {BufferSet}, offset := offset);
      if buffer.None? {
        pending := pending.(buffer := None);
        return;
      }
      pending := pending.(buffer := buffer);
    }

    method SetOpaque(region: Region)
      modifies this`pending
      ensures pending == Requested(old(pending), Request.SetOpaque(region))
    {
      pending := pending.(opaqueRegion := region);
      pending := pending.(updates := pending.updates + {OpaqueSet});
    }

    method SetInput(region: Region, isInfinite: bool)
      modifies this`pending
      ensures pending == Requested(old(pending), Request.SetInput(region, isInfinite))
    {
      pending := pending.(inputIsInfinite := isInfinite);
      pending := pending.(input := region);
      pending := pending.(updates := pending.updates + {InputSet});
    }

    method SetScale(scale: int)
      modifies this`pending
      ensures pending == Requested(old(pending), Request.SetScale(scale))
    {
      pending := pending.(scale := scale);
      pending := pending.(updates := pending.updates + {ScaleSet});
    }

    /** No flag is raised. */
    method SetTransform(transform: nat)
      modifies this`pending
      ensures pending == Requested(old(pending), Request.SetTransform(transform))
    {
      pending := pending.(transform := transform);
    }

    method SetSourceRectangle(rect: Rect)
      modifies this`pending
      ensures pending == Requested(old(pending), Request.SetSource(rect))
    {
      pending := pending.(sourceRect := rect);
      pending := pending.(updates := pending.updates + {SourceSet});
    }

    method SetDestinationSize(size: Size)
      modifies this`pending
      ensures pending == Requested(old(pending), Request.SetDestination(size))
    {
      pending := pending.(destination := size);
      pending := pending.(destinationIsSet := true);
    }

    method AddFrameCallback(callback: nat)
      modifies this`pending
      ensures pending == Requested(old(pending), Request.RequestFrame(callback))
    {
      pending := pending.(callbacks := pending.callbacks + [callback]);
    }

    /** The pending slot must hold its feedbacks; in a valid tree it always does. */
    method AddPresentationFeedback(feedback: nat)
      requires pending.feedbacks.Some?
      modifies this`pending
      ensures pending == Requested(old(pending), Request.RequestFeedback(feedback))
    {
      var f := pending.feedbacks.value;
      pending := pending.(feedbacks := Some(f.(items := f.items + [feedback])));
    }

    /** The buffer object is destroyed. */
    method BufferDestroyed(buffer: Buffer, ghost w: Realm)
      requires this in w.surfaces && Valid(Snap(w))
      modifies w.surfaces, w.subs
      ensures Snap(w) == DoBufferGone(old(Snap(w)), this, buffer)
    {
      hide Snap, SurfaceOk, CacheOk;
      ghost var t := Snap(w);
      SnapHolds(w, this);
      assert RoleOk(t.shape, this);
      if pending.buffer == Some(buffer) {
        pending := pending.(buffer := None);
        OnlySurface(w, t, this);
      } else if current.buffer == Some(buffer) {
        current := current.(buffer := None);
        OnlySurface(w, t, this);
      } else if subsurface != null && subsurface.cached.buffer == Some(buffer) {
        subsurface.cached := subsurface.cached.(buffer := None);
        OnlySub(w, t, subsurface);
      }
    }

    // The children lists.

    method AddChild(child: Subsurface)
      modifies this`pending, RoleObject()`cached
      ensures pending == old(pending).(children := old(pending.children) + [child],
                                       updates := old(pending.updates) + {ChildrenSet})
      ensures subsurface != null ==>
        subsurface.cached == old(subsurface.cached).(children := old(subsurface.cached.children) + [child])
    {
      if subsurface != null {
        subsurface.cached := subsurface.cached.(children := subsurface.cached.children + [child]);
      }
      pending := pending.(children := pending.children + [child]);
      pending := pending.(updates := pending.updates + {ChildrenSet});
    }

    method RemoveChild(child: Subsurface)
      modifies this`pending, this`current, RoleObject()`cached
      ensures pending == old(pending).(children := Without(old(pending.children), child))
      ensures current == old(current).(children := Without(old(current.children), child))
      ensures subsurface != null ==>
        subsurface.cached == old(subsurface.cached).(children := Without(old(subsurface.cached.children), child))
    {
      if subsurface != null {
        subsurface.cached := subsurface.cached.(children := Without(subsurface.cached.children, child));
      }
      pending := pending.(children := Without(pending.children, child));
      current := current.(children := Without(current.children, child));
    }

    /** The same, told of the tree that the objects hold. */
    method RemoveChildWithin(child: Subsurface, ghost w: Realm)
      requires this in w.surfaces && Valid(Snap(w))
      modifies this`pending, this`current, RoleObject()`cached
      ensures this in old(Snap(w)).surf && Snap(w) == ChildRemoved(old(Snap(w)), this, child)
    {
      hide Snap, Valid, ChildRemoved, Without;
      ghost var t := Snap(w);
      SnapHolds(w, this);
      RemoveChild(child);
      HoldsRemoved(w, t, this, child);
    }

    /** How this surface sees the surface a restacking request names. */
    function Seen(sibling: Surface): Sibling<Subsurface>
      reads sibling
    {
      if sibling == this then TheParent
      else if sibling.subsurface == null then NoSubsurface
      else Role(sibling.subsurface)
    }

    method RaiseChild(child: Subsurface, sibling: Surface) returns (ok: bool)
      modifies this`pending
      ensures
        var o := Raise(old(pending.children), child, Seen(sibling));
        && ok == o.ok
        && pending == if o.changed
                      then old(pending).(children := o.list, updates := old(pending.updates) + {ChildrenSet})
                      else old(pending)
    {
      hide IndexOf, EraseAt, InsertAt;
      var list := pending.children;
      if child !in list { return false; }
      if |list| == 1 { return true; }
      var at := IndexOf(list, child);
      if sibling == this {
        list := EraseAt(list, at);
        list := list + [child];
        pending := pending.(children := list, updates := pending.updates + {ChildrenSet});
        return true;
      }
      if sibling.subsurface == null { return false; }
      if sibling.subsurface !in list || sibling.subsurface == child { return false; }
      list := EraseAt(list, at);
      var siblingAt := IndexOf(list, sibling.subsurface);
      list := InsertAt(list, siblingAt + 1, child);
      pending := pending.(children := list, updates := pending.updates + {ChildrenSet});
      return true;
    }

    method LowerChild(child: Subsurface, sibling: Surface) returns (ok: bool)
      modifies this`pending
      ensures
        var o := Lower(old(pending.children), child, Seen(sibling));
        && ok == o.ok
        && pending == if o.changed
                      then old(pending).(children := o.list, updates := old(pending.updates) + {ChildrenSet})
                      else old(pending)
    {
      hide IndexOf, EraseAt, InsertAt;
      var list := pending.children;
      if child !in list { return false; }
      if |list| == 1 { return true; }
      var at := IndexOf(list, child);
      if sibling == this {
        list := EraseAt(list, at);
        list := [child] + list;
        pending := pending.(children := list, updates := pending.updates + {ChildrenSet});
        return true;
      }
      if sibling.subsurface == null { return false; }
      if sibling.subsurface !in list || sibling.subsurface == child { return false; }
      list := EraseAt(list, at);
      var siblingAt := IndexOf(list, sibling.subsurface);
      list := InsertAt(list, siblingAt, child);
      pending := pending.(children := list, updates := pending.updates + {ChildrenSet});
      return true;
    }

    // Updating the current state.

    /** Raises the children flag here and further up while synchronized. */
    method SyncedChildUpdate(ghost w: Realm)
      requires this in w.surfaces && Valid(Snap(w))
      modifies w.surfaces
      ensures Snap(w) == Mark(old(Snap(w)), {this} + MarkedAbove(old(Snap(w).shape), this))
      decreases w.depth[this], 1
    {
      hide Snap, Valid, Mark, MarkedAbove;
      ghost var t := Snap(w);
      SnapHolds(w, this);
      MarkHere(t, this);
      current := current.(updates := current.updates + {ChildrenSet});
      OnlySurface(w, t, this);
      TellParent(w);
    }

    /** Has the parent raise the flag if this surface's role is effectively synchronized. */
    method TellParent(ghost w: Realm)
      requires this in w.surfaces && Valid(Snap(w))
      modifies w.surfaces
      ensures Snap(w) == Mark(old(Snap(w)), MarkedAbove(old(Snap(w).shape), this))
      decreases w.depth[this], 0
    {
      hide Snap, Valid, Mark, MarkedAbove, IsSync;
      SnapHolds(w, this);
      MarkAboveStep(Snap(w), this);
      if subsurface != null {
        var sync := subsurface.IsSynchronized(w);
        if sync && subsurface.parent != null {
          subsurface.parent.SyncedChildUpdate(w);
        }
      }
    }

    /** `update_buffer`: takes the buffer and, when it is null, tells the surfaces above. */
    method UpdateBuffer(source: SurfaceState, ghost w: Realm) returns (resized: bool)
      requires this in w.surfaces && Valid(Snap(w))
      modifies w.surfaces
      ensures SurfaceOk(old(Snap(w).shape), this, old(Record()).(current := Buffered(old(current), source)))
      ensures Snap(w) == Mark(PutSurface(old(Snap(w)), this, old(Record()).(current := Buffered(old(current), source))),
                              if Unmaps(source) then MarkedAbove(old(Snap(w).shape), this) else {})
      ensures resized == BufferResizes(old(current), source)
    {
      hide Snap, Valid, Mark, MarkedAbove, Buffered, BufferResizes, PutSurface;
      ghost var t := Snap(w);
      SnapHolds(w, this);
      BufferedOk(t, this, source);
      resized := TakeBuffer(source);
      OnlySurface(w, t, this);
      if BufferSet in source.updates && source.buffer.None? {
        TellParent(w);
      }
    }

    method TakeBuffer(source: SurfaceState) returns (resized: bool)
      modifies this`current
      ensures current == Buffered(old(current), source) && resized == BufferResizes(old(current), source)
    {
      resized := false;
      if BufferSet !in source.updates { return; }
      var oldSize := NO_SIZE;
      var wasMapped, nowMapped := current.buffer.Some?, source.buffer.Some?;
      if wasMapped { oldSize := current.buffer.value.size; }
      current := current.(buffer := source.buffer);
      if wasMapped != nowMapped { current := current.(updates := current.updates + {Mapped}); }
      if !nowMapped { return; }
      current := current.(offset := source.offset);
      var newSize := current.buffer.value.size;
      resized := newSize.Valid() && newSize != oldSize;
    }

    /** `copy_to_current`, in three parts: lists, regions, geometry. */
    method CopyToCurrent(source: SurfaceState, before: bool) returns (resized: bool)
      modifies this`current
      ensures current == Copied(old(current), source)
      ensures resized == CopyResizes(before, current.buffer.Some?, source)
    {
      CopyLists(source);
      CopyRegions(source);
      resized := CopyGeometry(source, before);
    }

    method CopyLists(source: SurfaceState)
      modifies this`current
      ensures
        var c := Copied(old(current), source);
        current == old(current).(children := c.children, callbacks := c.callbacks, updates := c.updates)
    {
      if ChildrenSet in source.updates { current := current.(children := source.children); }
      current := current.(callbacks := current.callbacks + source.callbacks);
      if current.callbacks != [] { current := current.(updates := current.updates + {FrameSet}); }
    }

    method CopyRegions(source: SurfaceState)
      modifies this`current
      ensures
        var c := Copied(old(current), source);
        current == old(current).(input := c.input, inputIsInfinite := c.inputIsInfinite, opaqueRegion := c.opaqueRegion)
    {
      if InputSet in source.updates {
        current := current.(input := source.input, inputIsInfinite := source.inputIsInfinite);
      }
      if OpaqueSet in source.updates { current := current.(opaqueRegion := source.opaqueRegion); }
    }

    method CopyGeometry(source: SurfaceState, before: bool) returns (resized: bool)
      modifies this`current
      ensures
        var c := Copied(old(current), source);
        current == old(current).(scale := c.scale, transform := c.transform,
                                 destination := c.destination, sourceRect := c.sourceRect)
      ensures resized == CopyResizes(before, current.buffer.Some?, source)
    {
      resized := before;
      if ScaleSet in source.updates { current := current.(scale := source.scale); }
      if TransformSet in source.updates { current := current.(transform := source.transform); }
      if source.destinationIsSet {
        current := current.(destination := source.destination);
        resized := current.buffer.Some?;
      }
      if SourceSet in source.updates {
        if current.buffer.Some? && !source.destination.Valid() && source.sourceRect.Valid() { resized := true; }
        current := current.(sourceRect := source.sourceRect);
      }
    }

    /** `updateCurrentState` on the surface itself: takes the source and resets it. */
    method TakeSource(from: Source, ghost w: Realm)
      requires this in w.surfaces && Valid(Snap(w))
      requires from == FromCached ==> subsurface != null
      modifies w.surfaces, w.subs
      ensures Snap(w) == Own(old(Snap(w)), this, from)
    {
      hide Snap, Valid, Own, Halfway, Patched, Taken;
      SnapHolds(w, this);
      HalfwayToOwn(Snap(w), this, from);
      var source := if from == FromPending then pending else subsurface.cached;
      TakeState(source, w);
      ResetSource(from, w);
    }

    method TakeState(source: SurfaceState, ghost w: Realm)
      requires this in w.surfaces && Valid(Snap(w))
      modifies w.surfaces
      ensures subsurface == old(subsurface) && current.children == Taken(old(Record()), source).current.children
      ensures
        var half := Halfway(old(Snap(w)), this, source);
        Snap(w) == half.(surf := half.surf[this := Taken(old(Record()), source)])
    {
      hide Snap, Valid, Halfway, Patched, Rest, Buffered, Copied, CopyResizes, BufferResizes;
      ghost var t, start := Snap(w), current;
      SnapHolds(w, this);
      HalfwayHere(t, this, source);
      var scaleFactorChanged := ScaleSet in source.updates && current.scale != source.scale;
      var resized := BeginUpdate(source, w);
      SnapHolds(w, this);
      ghost var half := Snap(w);
      TakeRest(source, resized, scaleFactorChanged);
      PatchedInTwo(start, source);
      assert Record() == Taken(old(Record()), source);
      hide Taken, HeldSurface, HeldSub;
      OnlySurface(w, half, this);
    }

    /** `updateCurrentState(source, forceChildren)`. */
    method UpdateCurrentState(from: Source, forceChildren: bool, ghost w: Realm)
      requires this in w.surfaces && Valid(Snap(w))
      requires from == FromCached ==> subsurface != null
      modifies w.surfaces, w.subs
      ensures Snap(w) == Update(old(Snap(w)), this, from, forceChildren)
      decreases Room(w, this), 1
    {
      hide Snap, Valid, Own, Walk;
      SnapHolds(w, this);
      TakeSource(from, w);
      SnapHolds(w, this);
      ApplyChildren(forceChildren, w);
    }

    /** Applies the cache of every current child, while that list cannot change. */
    method ApplyChildren(force: bool, ghost w: Realm)
      requires this in w.surfaces && Valid(Snap(w))
      modifies w.surfaces, w.subs
      ensures ChildrenOk(old(Snap(w).shape), this, old(current.children))
      ensures Snap(w) == Walk(old(Snap(w)), this, old(current.children), force)
      decreases Room(w, this), 0
    {
      hide Snap, Valid, Walk, Apply;
      ghost var t, list := Snap(w), current.children;
      SnapHolds(w, this);
      SourceIsOk(t, this, FromPending);
      var i := 0;
      while i < |current.children|
        invariant 0 <= i <= |list| && current.children == list
        invariant Valid(Snap(w)) && Snap(w).shape == t.shape && this in Snap(w).surf
        invariant ChildrenOk(t.shape, this, list[i..])
        invariant Walk(Snap(w), this, list[i..], force) == Walk(t, this, list, force)
        decreases |list| - i
      {
        ghost var now := Snap(w);
        SnapHolds(w, this);
        assert list[i..][0] == list[i] && list[i..][1..] == list[i + 1..];
        WalkHead(now, this, list[i..], force);
        ApplyKeepsLists(now, list[i], force, this);
        SnapHoldsSub(w, list[i]);
        current.children[i].ApplyCached(force, w);
        SnapHolds(w, this);
        i := i + 1;
      }
      assert list[i..] == [];
      WalkNothing(Snap(w), this, force);
    }

    /** A surface with a subsurface role leaves the commit to it. */
    method Commit(ghost w: Realm)
      requires this in w.surfaces && Valid(Snap(w))
      modifies w.surfaces, w.subs
      ensures Snap(w) == DoCommit(old(Snap(w)), this)
    {
      hide Snap, Valid, Update, Park;
      SnapHolds(w, this);
      if subsurface != null {
        SnapHoldsSub(w, subsurface);
        assert RoleOk(Snap(w).shape, this) by { SourceIsOk(Snap(w), this, FromCached); }
        subsurface.Commit(w);
        return;
      }
      UpdateCurrentState(FromPending, false, w);
    }

    // Rendering and presentation.

    /** Answers the callbacks of this surface and of all that its current children lead to. */
    method FrameRendered(ghost w: Realm)
      requires this in w.surfaces && Valid(Snap(w))
      modifies w.surfaces
      ensures Snap(w) == Render(old(Snap(w)), this)
      decreases Room(w, this)
    {
      hide Snap, Valid, RenderAll, Render;
      ghost var t, list := Snap(w), current.children;
      SnapHolds(w, this);
      DrainCallbacks();
      DrainedOk(t, this);
      OnlySurface(w, t, this);
      RenderIs(t, this);
      SnapHolds(w, this);
      ghost var t1 := Snap(w);
      var i := 0;
      while i < |current.children|
        invariant 0 <= i <= |list| && current.children == list
        invariant Valid(Snap(w)) && Snap(w).shape == t1.shape && this in Snap(w).surf
        invariant ChildrenOk(t1.shape, this, list[i..])
        invariant RenderAll(Snap(w), this, list[i..]) == RenderAll(t1, this, list)
        decreases |list| - i
      {
        ghost var now := Snap(w);
        SnapHolds(w, this);
        assert list[i..][0] == list[i] && list[i..][1..] == list[i + 1..];
        RenderHead(now, this, list[i..]);
        SnapHoldsSub(w, list[i]);
        RenderKeepsLists(now, list[i].surface, this);
        current.children[i].surface.FrameRendered(w);
        SnapHolds(w, this);
        i := i + 1;
      }
      assert list[i..] == [];
      RenderNothing(Snap(w), this);
    }

    method DrainCallbacks()
      modifies this`current, this`sent
      ensures Record() == Drained(old(Record()))
    {
      ghost var all := current.callbacks;
      assert sent == old(sent) + DoneEvents([]);
      ghost var answered: seq<nat> := [];
      while current.callbacks != []
        invariant all == answered + current.callbacks
        invariant sent == old(sent) + DoneEvents(answered)
        invariant current == old(current).(callbacks := current.callbacks)
        invariant Record() == old(Record()).(current := current, sent := sent)
        decreases |current.callbacks|
      {
        var resource := current.callbacks[0];
        current := current.(callbacks := current.callbacks[1..]);
        assert DoneEvents(answered + [resource]) == DoneEvents(answered) + [Done(resource)];
        sent := sent + [Done(resource)];
        answered := answered + [resource];
      }
      assert answered == all;
    }

    /** Returns zero when there is nothing to lock. */
    method LockPresentation(output: nat, ghost w: Realm) returns (id: nat)
      requires this in w.surfaces && Valid(Snap(w))
      modifies this
      ensures Snap(w) == DoLock(old(Snap(w)), this, output)
      ensures id == if CanLock(old(Record())) then NextId(old(feedbackId)) else 0
      ensures id != 0 ==> id in waitingFeedbacks
    {
      hide Snap, Valid;
      ghost var t := Snap(w);
      SnapHolds(w, this);
      SourceIsOk(t, this, FromPending);
      if current.feedbacks.None? || current.feedbacks.value.items == [] { return 0; }
      Lock(output);
      OnlySurface(w, t, this);
      return feedbackId;
    }

    method Lock(output: nat)
      requires CanLock(Record()) && feedbackId < ID_LIMIT && current.feedbacks.value.output == None
      modifies this`current, this`feedbackId, this`waitingFeedbacks, this`sent
      ensures Record() == Locked(old(Record()), output)
    {
      var locked := current.feedbacks.value;
      locked := locked.(output := Some(output));
      feedbackId := if feedbackId + 1 == ID_LIMIT then 0 else feedbackId + 1;
      if feedbackId == 0 { feedbackId := 1; }
      if feedbackId in waitingFeedbacks {
        sent := sent + DiscardEvents(waitingFeedbacks[feedbackId].items);
      }
      assert old(sent) + [] == old(sent);
      waitingFeedbacks := waitingFeedbacks[feedbackId := locked];
      current := current.(feedbacks := None);
    }

    method PresentationFeedback(id: nat, ghost w: Realm)
      requires this in w.surfaces && Valid(Snap(w)) && id in waitingFeedbacks
      modifies this
      ensures id in old(Snap(w)).surf[this].waiting
      ensures Snap(w) == DoAnswer(old(Snap(w)), this, id, true)
    {
      hide Snap, Valid;
      ghost var t := Snap(w);
      SnapHolds(w, this);
      SourceIsOk(t, this, FromPending);
      sent := sent + PresentEvents(waitingFeedbacks[id].items);
      waitingFeedbacks := waitingFeedbacks - {id};
      OnlySurface(w, t, this);
    }

    method PresentationDiscarded(id: nat, ghost w: Realm)
      requires this in w.surfaces && Valid(Snap(w)) && id in waitingFeedbacks
      modifies this
      ensures id in old(Snap(w)).surf[this].waiting
      ensures Snap(w) == DoAnswer(old(Snap(w)), this, id, false)
    {
      hide Snap, Valid;
      ghost var t := Snap(w);
      SnapHolds(w, this);
      SourceIsOk(t, this, FromPending);
      sent := sent + DiscardEvents(waitingFeedbacks[id].items);
      waitingFeedbacks := waitingFeedbacks - {id};
      OnlySurface(w, t, this);
    }

    /** `Feedbacks::handleOutputRemoval` on a waiting entry. */
    method OutputRemoved(id: nat, ghost w: Realm)
      requires this in w.surfaces && Valid(Snap(w))
      requires id in waitingFeedbacks && waitingFeedbacks[id].output.Some?
      modifies this
      ensures id in old(Snap(w)).surf[this].waiting && old(Snap(w)).surf[this].waiting[id].output.Some?
      ensures Snap(w) == DoOutputGone(old(Snap(w)), this, id)
    {
      hide Snap, Valid;
      ghost var t := Snap(w);
      SnapHolds(w, this);
      SourceIsOk(t, this, FromPending);
      sent := sent + DiscardEvents(waitingFeedbacks[id].items);
      waitingFeedbacks := waitingFeedbacks[id := NO_FEEDBACKS];
      OnlySurface(w, t, this);
    }

    /** The client's feedback object is destroyed: the list it waits in loses it. */
    method RemoveFeedback(place: Place, feedback: nat, ghost w: Realm)
      requires this in w.surfaces && Valid(Snap(w)) && feedback in Held(Snap(w), this, place)
      modifies this, RoleObject()
      ensures this in old(Snap(w)).surf && feedback in Held(old(Snap(w)), this, place)
      ensures Snap(w) == DoFeedbackGone(old(Snap(w)), this, place, feedback)
    {
      hide Snap, Valid, Dropped;
      ghost var t := Snap(w);
      SnapHolds(w, this);
      SourceIsOk(t, this, FromPending);
      match place {
        case InPending =>
          pending := pending.(feedbacks := Some(Dropped(pending.feedbacks.value, feedback)));
          OnlySurface(w, t, this);
        case InCurrent =>
          current := current.(feedbacks := Some(Dropped(current.feedbacks.value, feedback)));
          OnlySurface(w, t, this);
        case InWaiting(id) =>
          waitingFeedbacks := waitingFeedbacks[id := Dropped(waitingFeedbacks[id], feedback)];
          OnlySurface(w, t, this);
        case InCached =>
          subsurface.cached := subsurface.cached.(
            feedbacks := Some(Dropped(subsurface.cached.feedbacks.value, feedback)));
          OnlySub(w, t, subsurface);
      }
    }

    /** Flags and buffer. */
    method BeginUpdate(source: SurfaceState, ghost w: Realm) returns (resized: bool)
      requires this in w.surfaces && Valid(Snap(w))
      modifies w.surfaces
      ensures Snap(w) == Halfway(old(Snap(w)), this, source)
      ensures resized == BufferResizes(old(current), source)
    {
      hide Snap, Valid, Halfway, Buffered, BufferResizes, Mark;
      ghost var t, start := Snap(w), current;
      SnapHolds(w, this);
      FlagsOk(t, this, source.updates);
      MeetHalfway(t, this, source);
      PatchedInTwo(start, source);
      current := current.(updates := source.updates);
      OnlySurface(w, t, this);
      resized := UpdateBuffer(source, w);
    }

    /** The source becomes a default state that keeps the current children. */
    method ResetSource(from: Source, ghost w: Realm)
      requires this in w.surfaces && (from == FromCached ==> subsurface != null && subsurface in w.subs)
      modifies this`pending, RoleObject()`cached
      ensures
        var t, blank, u := old(Snap(w)), Blank(old(current.children)), old(subsurface);
        Snap(w) == if from == FromPending then t.(surf := t.surf[this := t.surf[this].(pending := blank)])
                   else t.(sub := t.sub[u := t.sub[u].(cached := blank)])
    {
      hide Snap;
      ghost var t := Snap(w);
      SnapHolds(w, this);
      if from == FromPending {
        pending := Blank(current.children);
        OnlySurface(w, t, this);
      } else {
        subsurface.cached := Blank(current.children);
        OnlySub(w, t, subsurface);
      }
    }

    /** What follows `update_buffer`: the other fields, the size flag and the feedbacks. */
    method TakeRest(source: SurfaceState, before: bool, scaleFactorChanged: bool)
      modifies this`current, this`sent
      ensures current == Rest(old(current), source, before, scaleFactorChanged)
      ensures sent == old(sent) + DropEvents(old(current.feedbacks))
    {
      var resized := CopyToCurrent(source, before);
      if scaleFactorChanged { resized := current.buffer.Some?; }
      if resized { current := current.(updates := current.updates + {Resized}); }
      sent := sent + DropEvents(current.feedbacks);
      current := current.(feedbacks := source.feedbacks);
    }
  }

  class Subsurface {
    var surface: Surface?
    var parent: Surface?
    var mode: Mode
    var pos: Point
    var scheduledPos: Point
    var scheduledPosChange: bool
    var cached: SurfaceState

    ghost function Record(): SubRec
      reads this
    {
      SubRec(pos, scheduledPos, scheduledPosChange, cached)
    }

    /** Takes the role of `s`; the parent does not list it yet. */
    constructor (s: Surface, p: Surface, ghost w: Realm)
      requires Valid(Snap(w)) && s in w.surfaces && p in w.surfaces
      requires s.subsurface == null && !Under(Snap(w).shape, s, p)
      modifies w.surfaces
      ensures Joins(old(Snap(w)), this, s, p)
      ensures Snap(Enlarged(w, old(Snap(w)), this, s, p)) == Joined(old(Snap(w)), this, s, p)
      ensures parent == p && surface == s
    {
      surface, parent, mode := s, p, Synchronized;
      pos, scheduledPos, scheduledPosChange := Point(0, 0), Point(0, 0), false;
      cached := Blank([]);
      new;
      hide Snap, Valid, Under, Attached;
      SnapHolds(w, s);
      SnapHolds(w, p);
      ghost var t := Snap(w);
      s.subsurface := this;
      HoldsJoined(w, t, this, s, p);
    }

    /** Joins the parent's pending list. */
    method Init(ghost w: Realm)
      requires this in w.subs && Valid(Snap(w)) && parent != null && surface != null
      requires this !in parent.pending.children
      requires parent.subsurface != null ==> this !in parent.subsurface.cached.children
      modifies w.surfaces, w.subs
      ensures
        var t, p := old(Snap(w)), old(parent);
        && p in t.surf && this in t.sub && t.shape.parent[this] == p && t.shape.surface[this] != null
        && this !in t.surf[p].pending.children && this !in CachedChildren(t, p)
        && Snap(w) == ChildAdded(t, p, this)
    {
      hide Snap, Valid, ChildAdded;
      ghost var t := Snap(w);
      SnapHoldsSub(w, this);
      SnapHolds(w, parent);
      CachedChildrenOk(t, parent);
      parent.AddChild(this);
      HoldsAdded(w, t, parent, this);
    }

    /** `wl_subcompositor.get_subsurface`. */
    static method Create(s: Surface, p: Surface, ghost w: Realm) returns (u: Subsurface)
      requires Valid(Snap(w)) && s in w.surfaces && p in w.surfaces
      requires s.subsurface == null && !Under(Snap(w).shape, s, p)
      modifies w.surfaces, w.subs
      ensures Joins(old(Snap(w)), u, s, p)
      ensures Snap(Enlarged(w, old(Snap(w)), u, s, p)) == DoCreateSubsurface(old(Snap(w)), u, s, p)
    {
      hide Snap, Valid, Under, Joined, ChildAdded, Attached;
      ghost var t := Snap(w);
      u := new Subsurface(s, p, w);
      ghost var w1 := Enlarged(w, t, u, s, p);
      JoinedIsReady(t, u, s, p);
      SnapHolds(w1, p);
      u.Init(w1);
    }

    /** Follows the parents' modes up to the root. */
    method IsSynchronized(ghost w: Realm) returns (sync: bool)
      requires this in w.subs && Valid(Snap(w))
      ensures sync == IsSync(Snap(w).shape, this)
      decreases Links(Snap(w).shape, this)
    {
      ghost var sh := Snap(w).shape;
      assert SubsurfaceOk(sh, this);
      if mode == Synchronized { return true; }
      if parent == null { return false; }
      assert RoleOk(sh, parent);
      var parentSub := parent.subsurface;
      if parentSub != null {
        assert SubsurfaceOk(sh, parentSub);
        sync := parentSub.IsSynchronized(w);
        return;
      }
      return false;
    }

    /** Takes a scheduled position, and the cached state when forced or synchronized. */
    method ApplyCached(force: bool, ghost w: Realm)
      requires this in w.subs && Valid(Snap(w))
      requires surface != null
      modifies w.surfaces, w.subs
      ensures this in old(Snap(w)).sub && old(Snap(w)).shape.surface[this] != null
      ensures Snap(w) == Apply(old(Snap(w)), this, force)
      decreases Room(w, surface), 2
    {
      hide Snap, Valid, Walk, Own;
      ghost var t := Snap(w);
      SnapHoldsSub(w, this);
      PositionedOk(t, this);
      if scheduledPosChange {
        scheduledPosChange := false;
        pos := scheduledPos;
        scheduledPos := Point(0, 0);
      }
      OnlySub(w, t, this);
      SnapHoldsSub(w, this);
      var sync := force;
      if !force { sync := IsSynchronized(w); }
      if sync {
        surface.UpdateCurrentState(FromCached, true, w);
      } else {
        surface.ApplyChildren(false, w);
      }
    }

    /** Parks the pending state while synchronized, else commits it. */
    method Commit(ghost w: Realm)
      requires this in w.subs && Valid(Snap(w)) && surface != null
      modifies w.surfaces, w.subs
      ensures old(surface) in old(Snap(w)).surf && Snap(w) == DoCommit(old(Snap(w)), old(surface))
    {
      hide Snap, Valid, Update;
      ghost var t := Snap(w);
      SnapHoldsSub(w, this);
      SnapHolds(w, surface);
      SourceIsOk(t, surface, FromPending);
      SourceIsOk(t, surface, FromCached);
      var sync := IsSynchronized(w);
      if sync {
        ParkPending();
        OnlyPair(w, t, surface, this);
        return;
      }
      surface.UpdateCurrentState(FromPending, false, w);
    }

    /** The pending state moves into the cache; the feedbacks that were there are discarded. */
    method ParkPending()
      requires surface != null
      modifies this`cached, surface`pending, surface`sent
      ensures cached == old(surface.pending) && surface.pending == Blank(old(surface.pending.children))
      ensures surface.sent == old(surface.sent) + DropEvents(old(cached.feedbacks))
    {
      surface.sent := surface.sent + DropEvents(cached.feedbacks);
      cached := surface.pending;
      surface.pending := Blank(cached.children);
    }

    /** Turning desynchronized under a parent that is not synchronized flushes the cache at once. */
    method SetMode(mode: Mode, ghost w: Realm)
      requires this in w.subs && Valid(Snap(w))
      requires mode == Desynchronized && this.mode != mode ==> parent != null
      modifies w.surfaces, w.subs
      ensures this in old(Snap(w)).sub
      ensures mode == Desynchronized && old(this.mode) != mode ==> old(Snap(w)).shape.parent[this] != null
      ensures Snap(w) == DoSetMode(old(Snap(w)), this, mode)
    {
      hide Snap, Valid, Update, PutMode;
      ghost var t := Snap(w);
      SnapHoldsSub(w, this);
      if this.mode == mode { return; }
      this.mode := mode;
      OnlyMode(w, t, this);
      SnapHoldsSub(w, this);
      if mode == Desynchronized {
        SnapHolds(w, parent);
        var parentSync := false;
        if parent.subsurface != null { parentSync := parent.subsurface.IsSynchronized(w); }
        if !parentSync {
          AppearInParent(w);
          SnapHoldsSub(w, this);
          SnapHolds(w, surface);
          surface.UpdateCurrentState(FromCached, false, w);
        }
      }
    }

    /** The parent's current list must have the child before its cache is flushed. */
    method AppearInParent(ghost w: Realm)
      requires this in w.subs && Valid(Snap(w)) && parent != null
      modifies w.surfaces
      ensures this in old(Snap(w)).sub && old(Snap(w)).shape.parent[this] != null
      ensures Snap(w) == ShowNow(old(Snap(w)), this)
    {
      hide Snap, Valid;
      ghost var t := Snap(w);
      SnapHoldsSub(w, this);
      SnapHolds(w, parent);
      SourceIsOk(t, parent, FromPending);
      if this !in parent.current.children {
        parent.current := parent.current.(children := parent.current.children + [this]);
        OnlySurface(w, t, parent);
      }
    }

    /** The new position is taken when the parent's state is applied. */
    method SetPosition(pos: Point, ghost w: Realm)
      requires this in w.subs && Valid(Snap(w))
      modifies this`scheduledPos, this`scheduledPosChange
      ensures this in old(Snap(w)).sub && Snap(w) == DoSetPosition(old(Snap(w)), this, pos)
    {
      hide Snap, Valid;
      ghost var t := Snap(w);
      SnapHoldsSub(w, this);
      assert CacheOk(t.shape, this, t.sub[this]) by { CachesOk(t, this); }
      if this.pos == pos { return; }
      scheduledPos := pos;
      scheduledPosChange := true;
      OnlySub(w, t, this);
    }

    /** Restacks in the parent's pending list; `failed` says that an error is posted. */
    method PlaceAbove(sibling: Surface, ghost w: Realm) returns (failed: bool)
      requires this in w.subs && sibling in w.surfaces && Valid(Snap(w))
      modifies w.surfaces
      ensures this in old(Snap(w)).sub && sibling in old(Snap(w)).surf
      ensures Snap(w) == DoPlace(old(Snap(w)), this, sibling, Above)
      ensures old(parent) != null ==> old(Snap(w)).shape.parent[this] != null
      ensures failed <==> old(parent) != null && !Restacked(old(Snap(w)), this, sibling, Above).ok
    {
      hide Snap, Valid, Raise, Lower;
      ghost var t := Snap(w);
      SnapHoldsSub(w, this);
      SnapHolds(w, sibling);
      if parent == null { return false; }
      SnapHolds(w, parent);
      SourceIsOk(t, parent, FromPending);
      RaiseRestacks(parent.pending.children, this, parent.Seen(sibling));
      var ok := parent.RaiseChild(this, sibling);
      OnlySurface(w, t, parent);
      SameRecord(t, parent);
      return !ok;
    }

    method PlaceBelow(sibling: Surface, ghost w: Realm) returns (failed: bool)
      requires this in w.subs && sibling in w.surfaces && Valid(Snap(w))
      modifies w.surfaces
      ensures this in old(Snap(w)).sub && sibling in old(Snap(w)).surf
      ensures Snap(w) == DoPlace(old(Snap(w)), this, sibling, Below)
      ensures old(parent) != null ==> old(Snap(w)).shape.parent[this] != null
      ensures failed <==> old(parent) != null && !Restacked(old(Snap(w)), this, sibling, Below).ok
    {
      hide Snap, Valid, Raise, Lower;
      ghost var t := Snap(w);
      SnapHoldsSub(w, this);
      SnapHolds(w, sibling);
      if parent == null { return false; }
      SnapHolds(w, parent);
      SourceIsOk(t, parent, FromPending);
      LowerRestacks(parent.pending.children, this, parent.Seen(sibling));
      var ok := parent.LowerChild(this, sibling);
      OnlySurface(w, t, parent);
      SameRecord(t, parent);
      return !ok;
    }

    /** The surface at the root of the tree, unless a parent is missing on the way. */
    method FindMainSurface(ghost w: Realm) returns (root: Surface?)
      requires this in w.subs && Valid(Snap(w))
      ensures root == MainSurface(Snap(w).shape, this)
      decreases Links(Snap(w).shape, this)
    {
      ghost var sh := Snap(w).shape;
      assert SubsurfaceOk(sh, this);
      if parent == null { return null; }
      assert RoleOk(sh, parent);
      if parent.subsurface != null {
        assert SubsurfaceOk(sh, parent.subsurface);
        root := parent.subsurface.FindMainSurface(w);
        return;
      }
      return parent;
    }

    /** The destructor: the surface loses the role, the parent its child, the cache its feedbacks. */
    method Destroy(ghost w: Realm)
      requires this in w.subs && Valid(Snap(w))
      modifies w.surfaces, w.subs
      ensures this in old(Snap(w)).sub
      ensures Snap(w.(subs := w.subs - {this})) == DoDestroySubsurface(old(Snap(w)), this)
    {
      hide Snap, Valid, Detach, Forget, DropCache, NowhereListed;
      SnapHoldsSub(w, this);
      LeaveParent(w);
      SnapHoldsSub(w, this);
      DiscardCached(w);
      SnapHoldsSub(w, this);
      GiveUpRole(w);
    }

    /** The cached feedbacks go with the cached state. */
    method DiscardCached(ghost w: Realm)
      requires this in w.subs && Valid(Snap(w))
      modifies w.surfaces
      ensures this in old(Snap(w)).sub && Snap(w) == DropCache(old(Snap(w)), this)
    {
      hide Snap, Valid, DropCache;
      ghost var t := Snap(w);
      SnapHoldsSub(w, this);
      DropCacheIs(t, this);
      if surface != null {
        surface.sent := surface.sent + DropEvents(cached.feedbacks);
        OnlySurface(w, t, surface);
      }
    }

    method GiveUpRole(ghost w: Realm)
      requires this in w.subs && Valid(Snap(w)) && NowhereListed(Snap(w), this)
      modifies w.surfaces, w.subs
      ensures this in old(Snap(w)).sub && Snap(w.(subs := w.subs - {this})) == Forget(old(Snap(w)), this)
    {
      hide Snap, Valid, Forget, NowhereListed;
      ghost var t := Snap(w);
      SnapHoldsSub(w, this);
      if surface != null { surface.subsurface := null; }
      HoldsForgotten(w, t, this);
      surface, parent := null, null;
    }

    /** `removeChild` on the parent, if there is one. */
    method LeaveParent(ghost w: Realm)
      requires this in w.subs && Valid(Snap(w))
      modifies w.surfaces, w.subs
      ensures this in old(Snap(w)).sub
      ensures Snap(w) == Detach(old(Snap(w)), this)
    {
      hide Snap, Valid, ChildRemoved;
      ghost var t := Snap(w);
      SnapHoldsSub(w, this);
      if parent != null {
        SnapHolds(w, parent);
        parent.RemoveChildWithin(this, w);
      }
    }
  }
}
