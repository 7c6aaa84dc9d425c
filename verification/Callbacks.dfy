/** Frame callbacks: first in, first out, none lost but by the two operations that overwrite a cache. */
module Callbacks {
  import opened Seqs
  import opened SurfaceTree
  import opened TreeWalk
  import opened AtomicCommit
  import opened RootSurface

  /** The callbacks that were answered, in order. */
  function DoneLog(sent: seq<SurfaceTree.Event>): seq<nat> {
    if sent == [] then []
    else DoneLog(sent[..|sent| - 1]) + match sent[|sent| - 1] case Done(c) => [c] case _ => []
  }

  /** Answered callbacks and those that wait for the next frame. */
  function Front(r: SurfaceRec): seq<nat> {
    DoneLog(r.sent) + r.current.callbacks
  }

  function CachedCallbacks(t: Tree, s: Surface): seq<nat>
    requires Valid(t) && s in t.surf
  {
    assert RoleOk(t.shape, s);
    if t.shape.role[s] == null then [] else t.sub[t.shape.role[s]].cached.callbacks
  }

  /** Everything the client asked for that is answered or will be, in the order it will be. */
  function Queue(t: Tree, s: Surface): seq<nat>
    requires Valid(t) && s in t.surf
  {
    Front(t.surf[s]) + CachedCallbacks(t, s) + t.surf[s].pending.callbacks
  }

  lemma {:induction false} DoneLogAppend(a: seq<SurfaceTree.Event>, b: seq<SurfaceTree.Event>)
    ensures DoneLog(a + b) == DoneLog(a) + DoneLog(b)
  {
    if b == [] {
      assert a + b == a;
    } else {
      assert (a + b)[..|a + b| - 1] == a + b[..|b| - 1];
      DoneLogAppend(a, b[..|b| - 1]);
    }
  }

  lemma {:induction false} DoneLogItems(items: seq<nat>)
    ensures DoneLog(DoneEvents(items)) == items
    ensures DoneLog(DiscardEvents(items)) == [] && DoneLog(PresentEvents(items)) == []
  {
    if items != [] {
      var n := |items| - 1;
      DoneLogItems(items[..n]);
      assert DiscardEvents(items)[..n] == DiscardEvents(items[..n]);
      assert PresentEvents(items)[..n] == PresentEvents(items[..n]);
      assert DoneEvents(items)[..n] == DoneEvents(items[..n]);
      assert items == items[..n] + [items[n]];
    }
  }

  lemma DropKeepsLog(sent: seq<SurfaceTree.Event>, slot: Option<Feedbacks>)
    ensures DoneLog(sent + DropEvents(slot)) == DoneLog(sent)
  {
    DoneLogAppend(sent, DropEvents(slot));
    if slot.Some? { DoneLogItems(slot.value.items); }
  }

  lemma TakenFront(a: SurfaceRec, src: SurfaceState)
    ensures Front(Taken(a, src)) == Front(a) + src.callbacks
  {
    DropKeepsLog(a.sent, a.current.feedbacks);
  }

  lemma DrainedFront(a: SurfaceRec)
    ensures Front(Drained(a)) == Front(a)
  {
    DoneLogAppend(a.sent, DoneEvents(a.current.callbacks));
    DoneLogItems(a.current.callbacks);
  }

  // ---------------------------------------------------------------- commits

  /** The whole queue stays, and so does its pending end. */
  ghost predicate Kept(t: Tree, r: Tree, s: Surface) {
    && Valid(t) && Valid(r) && s in t.surf && s in r.surf
    && Queue(r, s) == Queue(t, s)
    && r.surf[s].pending.callbacks == t.surf[s].pending.callbacks
  }

  lemma CacheAfter(t: Tree, r: Tree, x: Surface, from: Source, s: Surface)
    requires Updated(t, r, x, from) && s in t.surf
    ensures CachedCallbacks(r, s) ==
      if (s == x && from == FromCached) || (s != x && Takes(r, x, s)) then [] else CachedCallbacks(t, s)
  {
    assert RoleOk(t.shape, s);
    var u := t.shape.role[s];
    if u != null { assert r.sub[u] == ExpectedSub(t, r, x, from, u); }
  }

  lemma FrontAfter(t: Tree, r: Tree, x: Surface, from: Source, s: Surface)
    requires Updated(t, r, x, from) && s in t.surf
    ensures s != x ==> t.shape.role[s] != null || !Takes(r, x, s)
    ensures Front(r.surf[s]) ==
      if Takes(r, x, s) then Front(t.surf[s]) + TakenState(t, x, from, s).callbacks else Front(t.surf[s])
    ensures r.surf[s].pending.callbacks ==
      if s == x && from == FromPending then [] else t.surf[s].pending.callbacks
  {
    assert r.surf[s] == Expected(t, r, x, from, s);
    assert RoleOk(t.shape, s);
    if Takes(r, x, s) { TakenFront(t.surf[s], TakenState(t, x, from, s)); }
  }

  /** An update moves callbacks forward; only taking the pending ones past cached ones can reorder. */
  lemma UpdateQueue(t: Tree, r: Tree, x: Surface, from: Source, s: Surface)
    requires Updated(t, r, x, from) && s in t.surf
    ensures Queue(r, s) ==
      if s == x && from == FromPending
      then Front(t.surf[s]) + t.surf[s].pending.callbacks + CachedCallbacks(t, s)
      else Queue(t, s)
  {
    CacheAfter(t, r, x, from, s);
    FrontAfter(t, r, x, from, s);
    assert RoleOk(t.shape, s);
  }

  /** What a commit of `s` makes of its queue: a synchronized one overwrites what was cached, any other
      takes the pending callbacks past it. */
  function CommittedQueue(t: Tree, s: Surface): seq<nat>
    requires Valid(t) && s in t.surf
  {
    var front, cached, pending := Front(t.surf[s]), CachedCallbacks(t, s), t.surf[s].pending.callbacks;
    if SyncedRole(t.shape, s) then front + pending else front + pending + cached
  }

  /** Commits that keep the order: a synchronized one finds the cache without callbacks, any other finds
      none to overtake or none to overtake them with. */
  predicate CommitKeepsOrder(t: Tree, s: Surface)
    requires Valid(t) && s in t.surf
  {
    CachedCallbacks(t, s) == [] || (!SyncedRole(t.shape, s) && t.surf[s].pending.callbacks == [])
  }

  lemma CommitQueue(t: Tree, x: Surface, s: Surface)
    requires Valid(t) && x in t.surf && s in t.surf
    ensures s != x ==> Kept(t, DoCommit(t, x), s)
    ensures s == x ==>
      Queue(DoCommit(t, s), s) == CommittedQueue(t, s) && DoCommit(t, s).surf[s].pending.callbacks == []
  {
    hide DoneLog, Patched;
    if SyncedRole(t.shape, x) {
      ParkQueue(t, x, s);
    } else {
      CommitIsAtomic(t, x);
      UpdateQueue(t, DoCommit(t, x), x, FromPending, s);
      FrontAfter(t, DoCommit(t, x), x, FromPending, s);
    }
  }

  lemma ParkQueue(t: Tree, x: Surface, s: Surface)
    requires Valid(t) && x in t.surf && t.shape.role[x] != null && s in t.surf
    ensures s != x ==> Kept(t, Park(t, x), s)
    ensures s == x ==>
      && Queue(Park(t, s), s) == Front(t.surf[s]) + t.surf[s].pending.callbacks
      && Park(t, s).surf[s].pending.callbacks == []
  {
    hide DoneLog;
    SourceIsOk(t, x, FromCached);
    assert RoleOk(t.shape, s);
    DropKeepsLog(t.surf[x].sent, t.sub[t.shape.role[x]].cached.feedbacks);
  }

  lemma ShownKeeps(t: Tree, u: Subsurface, s: Surface)
    requires Valid(t) && u in t.sub && t.shape.parent[u] != null && s in t.surf
    ensures Kept(t, Shown(t, u), s)
  {
    assert SubsurfaceOk(t.shape, u) && RoleOk(t.shape, s);
  }

  lemma SetModeKeeps(t: Tree, u: Subsurface, m: Mode, s: Surface)
    requires Enabled(t, SetMode(u, m)) && s in t.surf
    ensures Kept(t, DoSetMode(t, u, m), s)
  {
    FlushIsAtomic(t, u, m);
    assert SubsurfaceOk(t.shape, u) && RoleOk(t.shape, s);
    if Flushes(t, u, m) {
      ShownKeeps(t, u, s);
      UpdateQueue(Shown(t, u), DoSetMode(t, u, m), t.shape.surface[u], FromCached, s);
      FrontAfter(Shown(t, u), DoSetMode(t, u, m), t.shape.surface[u], FromCached, s);
    }
  }

  // ---------------------------------------------------------------- rendered frames

  lemma RenderKeeps(t: Tree, x: Surface, s: Surface)
    requires Valid(t) && x in t.surf && s in t.surf
    ensures Kept(t, Render(t, x), s)
    decreases t.shape.bound - (if x in t.shape.depth then t.shape.depth[x] else 0), 1, 0
  {
    hide Queue;
    SourceIsOk(t, x, FromPending);
    var t1 := PutSurface(t, x, Drained(t.surf[x]));
    DrainKeeps(t, x, s);
    RenderAllKeeps(t1, x, t.surf[x].current.children, s);
  }

  lemma DrainKeeps(t: Tree, x: Surface, s: Surface)
    requires Valid(t) && x in t.surf && s in t.surf && SurfaceOk(t.shape, x, Drained(t.surf[x]))
    ensures Kept(t, PutSurface(t, x, Drained(t.surf[x])), s)
  {
    DrainedFront(t.surf[x]);
    assert RoleOk(t.shape, s);
  }

  lemma {:induction false} RenderAllKeeps(t: Tree, p: Surface, list: seq<Subsurface>, s: Surface)
    requires Valid(t) && p in t.surf && ChildrenOk(t.shape, p, list) && s in t.surf
    ensures Kept(t, RenderAll(t, p, list), s)
    decreases t.shape.bound - (if p in t.shape.depth then t.shape.depth[p] else 0), 0, |list|
  {
    if list != [] {
      assert SubsurfaceOk(t.shape, list[0]);
      RenderKeeps(t, t.shape.surface[list[0]], s);
      RenderAllKeeps(Render(t, t.shape.surface[list[0]]), p, list[1..], s);
    }
  }

  /** `frameRendered` answers every callback of every surface that the current children lead to, in the
      order they wait in, and leaves all other surfaces alone. */
  lemma RenderDrains(t: Tree, s: Surface, x: Surface)
    requires Valid(t) && s in t.surf && x in t.surf
    ensures Render(t, s).surf[x] == if Reached(t, s, x) then Drained(t.surf[x]) else t.surf[x]
    decreases t.shape.bound - (if s in t.shape.depth then t.shape.depth[s] else 0), 1, 0
  {
    SourceIsOk(t, s, FromPending);
    var list := t.surf[s].current.children;
    var t1 := PutSurface(t, s, Drained(t.surf[s]));
    RenderAllDrains(t1, s, list, x);
    assert Branch(t.shape, s, s) == null;
    if x != s {
      ReachedIsLinked(t, s, x);
      LinkedStable(t, t1, s, x);
    }
  }

  lemma {:induction false} RenderAllDrains(t: Tree, p: Surface, list: seq<Subsurface>, x: Surface)
    requires Valid(t) && p in t.surf && ChildrenOk(t.shape, p, list) && x in t.surf
    ensures RenderAll(t, p, list).surf[x] == if Visited(t, p, list, x) then Drained(t.surf[x]) else t.surf[x]
    decreases t.shape.bound - (if p in t.shape.depth then t.shape.depth[p] else 0), 0, |list|
  {
    hide Render;
    if list != [] {
      assert SubsurfaceOk(t.shape, list[0]);
      var s := t.shape.surface[list[0]];
      var t1 := Render(t, s);
      forall q | q in t.surf ensures t1.surf[q].current.children == t.surf[q].current.children {
        RenderDrains(t, s, q);
      }
      RenderDrains(t, s, x);
      RenderAllDrains(t1, p, list[1..], x);
      LinkedStable(t, t1, p, x);
      VisitedSplit(t, p, list, x);
    }
  }

  /** A walk visits what its first child leads to, and what the others do. */
  lemma VisitedSplit(t: Tree, p: Surface, list: seq<Subsurface>, x: Surface)
    requires Valid(t) && p in t.surf && ChildrenOk(t.shape, p, list) && list != [] && x in t.surf
    ensures
      var s := t.shape.surface[list[0]];
      && s in t.surf
      && (Visited(t, p, list, x) <==> Reached(t, s, x) || Visited(t, p, list[1..], x))
      && !(Reached(t, s, x) && Visited(t, p, list[1..], x))
  {
    var c := list[0];
    assert SubsurfaceOk(t.shape, c);
    var s := t.shape.surface[c];
    assert list == [c] + list[1..];
    NoDupCons(c, list[1..]);
    BranchSplit(t.shape, p, c, x);
    if x != s {
      ReachedIsLinked(t, s, x);
      if Branch(t.shape, p, x) == c { LinkedSplit(t, p, c, x); }
    } else {
      assert Linked(t, p, s);
    }
  }

  // ---------------------------------------------------------------- the other operations

  lemma RequestQueue(t: Tree, x: Surface, r: Request, s: Surface)
    requires Valid(t) && x in t.surf && s in t.surf
    ensures Queue(DoRequest(t, x, r), s)
            == Queue(t, s) + (if s == x && r.RequestFrame? then [r.callback] else [])
    ensures DoRequest(t, x, r).surf[s].pending.callbacks
            == t.surf[s].pending.callbacks + (if s == x && r.RequestFrame? then [r.callback] else [])
  {
    hide SurfaceOk, CacheOk, SubsurfaceOk;
    SourceIsOk(t, x, FromPending);
    assert RoleOk(t.shape, s);
  }

  lemma PlaceKeeps(t: Tree, u: Subsurface, sibling: Surface, dir: Direction, s: Surface)
    requires Enabled(t, Place(u, sibling, dir)) && s in t.surf
    ensures Kept(t, DoPlace(t, u, sibling, dir), s)
  {
    assert SubsurfaceOk(t.shape, u);
  }

  lemma PositionKeeps(t: Tree, u: Subsurface, pos: Point, s: Surface)
    requires Valid(t) && u in t.sub && s in t.surf
    ensures Kept(t, DoSetPosition(t, u, pos), s)
  {
    assert RoleOk(t.shape, s);
  }

  lemma BufferGoneKeeps(t: Tree, x: Surface, b: Buffer, s: Surface)
    requires Valid(t) && x in t.surf && s in t.surf
    ensures Kept(t, DoBufferGone(t, x, b), s)
  {
    assert RoleOk(t.shape, s) && RoleOk(t.shape, x);
  }

  lemma LockKeeps(t: Tree, x: Surface, output: nat, s: Surface)
    requires Valid(t) && x in t.surf && s in t.surf
    ensures Kept(t, DoLock(t, x, output), s)
  {
    SourceIsOk(t, x, FromPending);
    if CanLock(t.surf[x]) { DropKeepsLog(t.surf[x].sent, Waiting(t.surf[x], NextId(t.surf[x].feedbackId))); }
  }

  lemma AnswerKeeps(t: Tree, x: Surface, id: nat, presented: bool, s: Surface)
    requires Valid(t) && x in t.surf && s in t.surf && id in t.surf[x].waiting
    ensures Kept(t, DoAnswer(t, x, id, presented), s)
  {
    SourceIsOk(t, x, FromPending);
    AnswersKeepLog(t.surf[x].sent, t.surf[x].waiting[id].items, presented);
    assert RoleOk(t.shape, s);
  }

  lemma AnswersKeepLog(sent: seq<SurfaceTree.Event>, items: seq<nat>, presented: bool)
    ensures DoneLog(sent + if presented then PresentEvents(items) else DiscardEvents(items)) == DoneLog(sent)
  {
    DoneLogItems(items);
    DoneLogAppend(sent, PresentEvents(items));
    DoneLogAppend(sent, DiscardEvents(items));
  }

  lemma OutputGoneKeeps(t: Tree, x: Surface, id: nat, s: Surface)
    requires Enabled(t, OutputGone(x, id)) && s in t.surf
    ensures Kept(t, DoOutputGone(t, x, id), s)
  {
    SourceIsOk(t, x, FromPending);
    DropKeepsLog(t.surf[x].sent, Some(t.surf[x].waiting[id]));
  }

  lemma FeedbackGoneKeeps(t: Tree, x: Surface, place: Place, fb: nat, s: Surface)
    requires Valid(t) && x in t.surf && s in t.surf && fb in Held(t, x, place)
    ensures Kept(t, DoFeedbackGone(t, x, place, fb), s)
  {
    hide DoneLog, Dropped;
    SourceIsOk(t, x, FromPending);
    assert RoleOk(t.shape, x) && RoleOk(t.shape, s);
  }

  lemma CreateSurfaceKeeps(t: Tree, x: Surface, s: Surface)
    requires Valid(t) && x !in t.surf && s in t.surf
    ensures Kept(t, DoCreateSurface(t, x), s)
  {
    assert RoleOk(t.shape, s);
  }

  lemma CreateSubsurfaceKeeps(t: Tree, u: Subsurface, x: Surface, p: Surface, s: Surface)
    requires Enabled(t, CreateSubsurface(u, x, p)) && s in t.surf
    ensures Kept(t, DoCreateSubsurface(t, u, x, p), s)
  {
    hide Queue, ChildAdded, Joined, Attached;
    JoinKeeps(t, u, x, p, s);
    JoinedIsReady(t, u, x, p);
    AddChildKeeps(Joined(t, u, x, p), p, u, s);
  }

  lemma JoinKeeps(t: Tree, u: Subsurface, x: Surface, p: Surface, s: Surface)
    requires Enabled(t, CreateSubsurface(u, x, p)) && s in t.surf
    ensures Kept(t, Joined(t, u, x, p), s)
  {
    assert RoleOk(t.shape, s);
  }

  lemma AddChildKeeps(t: Tree, p: Surface, u: Subsurface, s: Surface)
    requires Valid(t) && p in t.surf && u in t.sub && s in t.surf
    requires t.shape.parent[u] == p && t.shape.surface[u] != null
    requires u !in t.surf[p].pending.children && u !in CachedChildren(t, p)
    ensures Kept(t, ChildAdded(t, p, u), s)
  {
    assert RoleOk(t.shape, s) && RoleOk(t.shape, p);
  }

  lemma RemoveChildKeeps(t: Tree, p: Surface, u: Subsurface, s: Surface)
    requires Valid(t) && p in t.surf && s in t.surf
    ensures ChildRemoved(t, p, u).surf[s].pending.callbacks == t.surf[s].pending.callbacks
    ensures Front(ChildRemoved(t, p, u).surf[s]) == Front(t.surf[s])
    ensures CachedCallbacks(ChildRemoved(t, p, u), s) == CachedCallbacks(t, s)
  {
    assert RoleOk(t.shape, s) && RoleOk(t.shape, p);
  }

  lemma DetachKeeps(t: Tree, u: Subsurface, s: Surface)
    requires Valid(t) && u in t.sub && s in t.surf
    ensures Kept(t, Detach(t, u), s) && CachedCallbacks(Detach(t, u), s) == CachedCallbacks(t, s)
    ensures Front(Detach(t, u).surf[s]) == Front(t.surf[s])
  {
    assert SubsurfaceOk(t.shape, u);
    if t.shape.parent[u] != null { RemoveChildKeeps(t, t.shape.parent[u], u, s); }
  }

  lemma DropCacheKeeps(d: Tree, u: Subsurface, s: Surface)
    requires Valid(d) && u in d.sub && s in d.surf
    ensures Kept(d, DropCache(d, u), s) && CachedCallbacks(DropCache(d, u), s) == CachedCallbacks(d, s)
    ensures Front(DropCache(d, u).surf[s]) == Front(d.surf[s])
  {
    assert SubsurfaceOk(d.shape, u);
    if d.shape.surface[u] == s { DropKeepsLog(d.surf[s].sent, d.sub[u].cached.feedbacks); }
  }

  lemma ForgetQueue(d: Tree, u: Subsurface, s: Surface)
    requires Valid(d) && u in d.sub && s in d.surf && NowhereListed(d, u)
    ensures s in Forget(d, u).surf
    ensures d.shape.surface[u] != s ==> Kept(d, Forget(d, u), s)
    ensures d.shape.surface[u] == s ==>
      && Queue(Forget(d, u), s) == Front(d.surf[s]) + d.surf[s].pending.callbacks
      && Forget(d, u).surf[s].pending.callbacks == d.surf[s].pending.callbacks
  {
    hide DoneLog;
    assert SubsurfaceOk(d.shape, u) && RoleOk(d.shape, s);
  }

  /** Destroying a subsurface loses exactly the callbacks in its cache. */
  lemma DestroySubsurfaceQueue(t: Tree, u: Subsurface, s: Surface)
    requires Valid(t) && u in t.sub && s in t.surf
    ensures s in DoDestroySubsurface(t, u).surf
    ensures DoDestroySubsurface(t, u).surf[s].pending.callbacks == t.surf[s].pending.callbacks
    ensures Queue(DoDestroySubsurface(t, u), s)
         == if t.shape.surface[u] == s then Front(t.surf[s]) + t.surf[s].pending.callbacks else Queue(t, s)
  {
    var d := Detach(t, u);
    DetachKeeps(t, u, s);
    DropCacheKeeps(d, u, s);
    ForgetQueue(DropCache(d, u), u, s);
  }

  lemma BuryKeeps(d: Tree, x: Surface, s: Surface)
    requires Valid(d) && x in d.surf && s in d.surf && s != x
    requires d.shape.role[x] != null ==> NowhereListed(d, d.shape.role[x])
    ensures Kept(d, Bury(d, x), s)
  {
    assert RoleOk(d.shape, s);
  }

  lemma DestroySurfaceKeeps(t: Tree, x: Surface, s: Surface)
    requires Enabled(t, DestroySurface(x)) && s in t.surf && s != x
    ensures Kept(t, DoDestroySurface(t, x), s)
  {
    assert RoleOk(t.shape, x);
    var u := t.shape.role[x];
    if u == null {
      BuryKeeps(t, x, s);
    } else {
      assert SubsurfaceOk(t.shape, u);
      assert Detach(t, u).surf[x] == t.surf[x];
      DetachKeeps(t, u, s);
      BuryKeeps(Detach(t, u), x, s);
    }
  }

  // ---------------------------------------------------------------- runs

  /** The operation neither drops nor reorders callbacks of `s`. */
  predicate KeepsOrder(t: Tree, op: Op, s: Surface)
    requires Enabled(t, op) && s in t.surf
  {
    match op
    case CommitSurface(x) => x != s || CommitKeepsOrder(t, s)
    case DestroySubsurface(u) => t.shape.surface[u] != s || CachedCallbacks(t, s) == []
    case _ => true
  }

  function AskedFrames(op: Op, s: Surface): seq<nat> {
    if op.StateRequest? && op.s == s && op.request.RequestFrame? then [op.request.callback] else []
  }

  /** The queue after the operation, and its pending end, told before it. */
  function QueueAfter(t: Tree, op: Op, s: Surface): seq<nat>
    requires Enabled(t, op) && s in t.surf
  {
    match op
    case CommitSurface(x) => if x == s then CommittedQueue(t, s) else Queue(t, s)
    case DestroySubsurface(u) =>
      if t.shape.surface[u] == s then Front(t.surf[s]) + t.surf[s].pending.callbacks else Queue(t, s)
    case _ => Queue(t, s) + AskedFrames(op, s)
  }

  function PendingAfter(t: Tree, op: Op, s: Surface): seq<nat>
    requires Enabled(t, op) && s in t.surf
  {
    if op == CommitSurface(s) then [] else t.surf[s].pending.callbacks + AskedFrames(op, s)
  }

  ghost predicate Queues(t: Tree, op: Op, s: Surface)
    requires Enabled(t, op) && s in t.surf
  {
    && s in Step(t, op).surf
    && Queue(Step(t, op), s) == QueueAfter(t, op, s)
    && Step(t, op).surf[s].pending.callbacks == PendingAfter(t, op, s)
  }

  /** Nothing asked for, nothing moved. */
  lemma KeptQueues(t: Tree, op: Op, s: Surface)
    requires Enabled(t, op) && AskedFrames(op, s) == [] && Kept(t, Step(t, op), s)
    requires op != CommitSurface(s) && (op.DestroySubsurface? ==> t.shape.surface[op.u] != s)
    ensures Queues(t, op, s)
  {
    hide Queue, Step;
    assert Queue(t, s) + [] == Queue(t, s);
    assert t.surf[s].pending.callbacks + [] == t.surf[s].pending.callbacks;
  }

  lemma CreateQueues(t: Tree, op: Op, s: Surface)
    requires Enabled(t, op) && s in t.surf
    requires op.CreateSurface? || op.CreateSubsurface?
    ensures Queues(t, op, s)
  {
    hide Queue, DoCreateSurface, DoCreateSubsurface, DoDestroySurface, DoDestroySubsurface, DoRequest, DoCommit,
         DoSetMode, DoSetPosition, DoPlace, DoBufferGone, Render, DoLock, DoAnswer, DoOutputGone, DoFeedbackGone;
    match op {
      case CreateSurface(x) => CreateSurfaceKeeps(t, x, s);
      case CreateSubsurface(u, x, p) => CreateSubsurfaceKeeps(t, u, x, p, s);
    }
    KeptQueues(t, op, s);
  }

  lemma DestroyQueues(t: Tree, op: Op, s: Surface)
    requires Enabled(t, op) && s in t.surf && op != DestroySurface(s)
    requires op.DestroySurface? || op.DestroySubsurface?
    ensures Queues(t, op, s)
  {
    hide Queue, DoCreateSurface, DoCreateSubsurface, DoDestroySurface, DoDestroySubsurface, DoRequest, DoCommit,
         DoSetMode, DoSetPosition, DoPlace, DoBufferGone, Render, DoLock, DoAnswer, DoOutputGone, DoFeedbackGone;
    match op {
      case DestroySurface(x) => DestroySurfaceKeeps(t, x, s);
      case DestroySubsurface(u) =>
        DestroySubsurfaceQueue(t, u, s);
        assert t.surf[s].pending.callbacks + [] == t.surf[s].pending.callbacks;
    }
    if op.DestroySurface? || t.shape.surface[op.u] != s { KeptQueues(t, op, s); }
  }

  lemma RequestQueues(t: Tree, op: Op, s: Surface)
    requires Enabled(t, op) && s in t.surf
    requires op.StateRequest? || op.SetPosition? || op.Place? || op.BufferGone?
    ensures Queues(t, op, s)
  {
    hide Queue, DoCreateSurface, DoCreateSubsurface, DoDestroySurface, DoDestroySubsurface, DoRequest, DoCommit,
         DoSetMode, DoSetPosition, DoPlace, DoBufferGone, Render, DoLock, DoAnswer, DoOutputGone, DoFeedbackGone;
    match op {
      case StateRequest(x, r) => RequestQueue(t, x, r, s);
      case SetPosition(u, pos) => PositionKeeps(t, u, pos, s);
      case Place(u, sibling, dir) => PlaceKeeps(t, u, sibling, dir, s);
      case BufferGone(x, b) => BufferGoneKeeps(t, x, b, s);
    }
    if !op.StateRequest? { KeptQueues(t, op, s); }
  }

  lemma TreeQueues(t: Tree, op: Op, s: Surface)
    requires Enabled(t, op) && s in t.surf
    requires op.CommitSurface? || op.SetMode? || op.FrameRendered?
    ensures Queues(t, op, s)
  {
    hide Queue, DoCreateSurface, DoCreateSubsurface, DoDestroySurface, DoDestroySubsurface, DoRequest, DoCommit,
         DoSetMode, DoSetPosition, DoPlace, DoBufferGone, Render, DoLock, DoAnswer, DoOutputGone, DoFeedbackGone;
    match op {
      case CommitSurface(x) => CommitQueue(t, x, s);
      case SetMode(u, m) => SetModeKeeps(t, u, m, s);
      case FrameRendered(x) => RenderKeeps(t, x, s);
    }
    if op != CommitSurface(s) { KeptQueues(t, op, s); }
  }

  lemma AnswerQueues(t: Tree, op: Op, s: Surface)
    requires Enabled(t, op) && s in t.surf
    requires op.LockPresentation? || op.AnswerPresentation? || op.OutputGone? || op.FeedbackGone?
    ensures Queues(t, op, s)
  {
    hide Queue, DoCreateSurface, DoCreateSubsurface, DoDestroySurface, DoDestroySubsurface, DoRequest, DoCommit,
         DoSetMode, DoSetPosition, DoPlace, DoBufferGone, Render, DoLock, DoAnswer, DoOutputGone, DoFeedbackGone;
    match op {
      case LockPresentation(x, output) => LockKeeps(t, x, output, s);
      case AnswerPresentation(x, id, presented) => AnswerKeeps(t, x, id, presented, s);
      case OutputGone(x, id) => OutputGoneKeeps(t, x, id, s);
      case FeedbackGone(x, place, fb) => FeedbackGoneKeeps(t, x, place, fb, s);
    }
    KeptQueues(t, op, s);
  }

  /** Every operation, told exactly. */
  lemma StepQueue(t: Tree, op: Op, s: Surface)
    requires Enabled(t, op) && s in t.surf && op != DestroySurface(s)
    ensures Queues(t, op, s)
  {
    if op.CreateSurface? || op.CreateSubsurface? {
      CreateQueues(t, op, s);
    } else if op.DestroySurface? || op.DestroySubsurface? {
      DestroyQueues(t, op, s);
    } else if op.StateRequest? || op.SetPosition? || op.Place? || op.BufferGone? {
      RequestQueues(t, op, s);
    } else if op.CommitSurface? || op.SetMode? || op.FrameRendered? {
      TreeQueues(t, op, s);
    } else {
      AnswerQueues(t, op, s);
    }
  }

  ghost predicate KeepsOrderThrough(t: Tree, ops: seq<Op>, s: Surface)
    requires Valid(t) && EnabledRun(t, ops)
    decreases |ops|
  {
    ops != [] ==>
      s in t.surf && KeepsOrder(t, ops[0], s) && KeepsOrderThrough(Step(t, ops[0]), ops[1..], s)
  }

  function AskedFramesIn(ops: seq<Op>, s: Surface): seq<nat> {
    if ops == [] then [] else AskedFrames(ops[0], s) + AskedFramesIn(ops[1..], s)
  }

  // Three pieces of a queue without duplicates.

  ghost predicate EndsWith(a: seq<nat>, b: seq<nat>) {
    |b| <= |a| && a[|a| - |b|..] == b
  }

  lemma Lost(front: seq<nat>, cached: seq<nat>, pending: seq<nat>, asked: seq<nat>)
    requires NoDup(front + cached + pending) && cached != []
    requires forall c :: c in front + cached + pending ==> c in asked
    ensures NoDup(front + pending) && front + pending != asked
    ensures forall c :: c in front + pending ==> c in asked
  {
    var whole, rest, n := front + cached + pending, front + pending, |front|;
    assert whole[n] == cached[0] && cached[0] in whole;
    forall i | 0 <= i < |rest| ensures rest[i] != cached[0] {
      assert rest[i] == whole[if i < n then i else i + |cached|];
    }
    forall i, j | 0 <= i < j < |rest| ensures rest[i] != rest[j] {
      var k, l := if i < n then i else i + |cached|, if j < n then j else j + |cached|;
      assert rest[i] == whole[k] && rest[j] == whole[l];
    }
  }

  lemma Reordered(front: seq<nat>, cached: seq<nat>, pending: seq<nat>)
    requires NoDup(front + cached + pending)
    ensures NoDup(front + pending + cached)
    ensures forall c :: c in front + pending + cached ==> c in front + cached + pending
  {
    var whole, r, n := front + cached + pending, front + pending + cached, |front|;
    forall i, j | 0 <= i < j < |r| ensures r[i] != r[j] {
      var k := if i < n then i else if i < n + |pending| then i + |cached| else i - |pending|;
      var l := if j < n then j else if j < n + |pending| then j + |cached| else j - |pending|;
      assert r[i] == whole[k] && r[j] == whole[l];
    }
  }

  lemma Overtaken(front: seq<nat>, cached: seq<nat>, pending: seq<nat>, asked: seq<nat>)
    requires NoDup(front + cached + pending) && cached != [] && pending != [] && EndsWith(asked, pending)
    ensures front + pending + cached != asked
  {
    var whole := front + cached + pending;
    assert asked[|asked| - 1] == pending[|pending| - 1] == whole[|whole| - 1];
    assert cached[|cached| - 1] == whole[|front| + |cached| - 1];
  }

  /** The queue `s` has, against what was asked for so far: no callback is asked for twice, none is made
      up, and the last ones asked for are those that are pending. */
  ghost predicate Traced(t: Tree, s: Surface, asked: seq<nat>) {
    && Valid(t) && s in t.surf
    && NoDup(asked) && NoDup(Queue(t, s)) && (forall c :: c in Queue(t, s) ==> c in asked)
    && EndsWith(asked, t.surf[s].pending.callbacks)
  }

  ghost predicate AsksAnew(op: Op, s: Surface, asked: seq<nat>) {
    forall c :: c in AskedFrames(op, s) ==> c !in asked
  }

  /** The operation takes or drops what waits: a commit of the surface, or the end of its role. */
  predicate Touches(t: Tree, op: Op, s: Surface)
    requires Enabled(t, op) && s in t.surf
  {
    op == CommitSurface(s) || (op.DestroySubsurface? && t.shape.surface[op.u] == s)
  }

  predicate Passes(t: Tree, op: Op, s: Surface)
    requires Enabled(t, op) && s in t.surf
  {
    op.CommitSurface? && !SyncedRole(t.shape, s)
  }

  lemma Untouched(t: Tree, op: Op, s: Surface)
    requires Enabled(t, op) && s in t.surf && !Touches(t, op, s)
    ensures KeepsOrder(t, op, s)
    ensures QueueAfter(t, op, s) == Queue(t, s) + AskedFrames(op, s)
    ensures PendingAfter(t, op, s) == t.surf[s].pending.callbacks + AskedFrames(op, s)
  {
    hide Queue, Valid;
    assert Queue(t, s) + [] == Queue(t, s);
  }

  lemma Touched(t: Tree, op: Op, s: Surface)
    requires Enabled(t, op) && s in t.surf && Touches(t, op, s)
    ensures AskedFrames(op, s) == []
    ensures
      var front, cached, pending := Front(t.surf[s]), CachedCallbacks(t, s), t.surf[s].pending.callbacks;
      && Queue(t, s) == front + cached + pending
      && QueueAfter(t, op, s) == (if Passes(t, op, s) then front + pending + cached else front + pending)
      && (KeepsOrder(t, op, s) <==> cached == [] || (Passes(t, op, s) && pending == []))
      && (PendingAfter(t, op, s) == [] || PendingAfter(t, op, s) == pending)
  {
    hide Front, CachedCallbacks, Valid;
    assert t.surf[s].pending.callbacks + [] == t.surf[s].pending.callbacks;
  }

  /** The exact condition for one operation: it keeps order and number of the callbacks if and only if it
      does not overwrite, overtake or drop cached ones. */
  lemma KeepsOrderIff(t: Tree, op: Op, s: Surface)
    requires Enabled(t, op) && s in t.surf && op != DestroySurface(s) && NoDup(Queue(t, s))
    ensures s in Step(t, op).surf
    ensures Queue(Step(t, op), s) == Queue(t, s) + AskedFrames(op, s) <==> KeepsOrder(t, op, s)
  {
    hide Step, Valid, Enabled, Queue, QueueAfter, PendingAfter, KeepsOrder, AskedFrames, NoDup;
    StepQueue(t, op, s);
    OrderAfterIff(t, op, s);
  }

  lemma OrderAfterIff(t: Tree, op: Op, s: Surface)
    requires Enabled(t, op) && s in t.surf && NoDup(Queue(t, s))
    ensures QueueAfter(t, op, s) == Queue(t, s) + AskedFrames(op, s) <==> KeepsOrder(t, op, s)
  {
    if Touches(t, op, s) { Touched(t, op, s); } else { Untouched(t, op, s); }
    hide Front, CachedCallbacks, Valid, Queue, QueueAfter, KeepsOrder, Passes, Touches, AskedFrames, NoDup;
    var front, cached, pending := Front(t.surf[s]), CachedCallbacks(t, s), t.surf[s].pending.callbacks;
    KeepsSame(front, cached, pending);
    if Touches(t, op, s) && cached != [] {
      Lost(front, cached, pending, front + cached + pending);
      if pending != [] { Overtaken(front, cached, pending, front + cached + pending); }
    }
  }

  lemma KeepsSame(front: seq<nat>, cached: seq<nat>, pending: seq<nat>)
    ensures cached == [] ==> front + pending == front + cached + pending == front + pending + cached
    ensures pending == [] ==> front + pending + cached == front + cached + pending
  {
  }

  lemma StepTraced(t: Tree, op: Op, s: Surface, asked: seq<nat>)
    requires Traced(t, s, asked) && Enabled(t, op) && op != DestroySurface(s) && AsksAnew(op, s, asked)
    ensures Traced(Step(t, op), s, asked + AskedFrames(op, s))
    ensures !KeepsOrder(t, op, s) ==> Queue(Step(t, op), s) != asked + AskedFrames(op, s)
  {
    hide Step, Valid, Enabled, Queue, QueueAfter, PendingAfter, KeepsOrder, AskedFrames, NoDup, EndsWith;
    StepQueue(t, op, s);
    TracedAfter(t, op, s, asked);
  }

  lemma TracedAfter(t: Tree, op: Op, s: Surface, asked: seq<nat>)
    requires Traced(t, s, asked) && Enabled(t, op) && AsksAnew(op, s, asked)
    ensures
      var queue, more := QueueAfter(t, op, s), asked + AskedFrames(op, s);
      && NoDup(more) && NoDup(queue) && (forall c :: c in queue ==> c in more)
      && EndsWith(more, PendingAfter(t, op, s))
      && (!KeepsOrder(t, op, s) ==> queue != more)
  {
    assert |AskedFrames(op, s)| <= 1;
    if Touches(t, op, s) { Touched(t, op, s); } else { Untouched(t, op, s); }
    hide Front, CachedCallbacks, Valid, Queue, QueueAfter, PendingAfter, KeepsOrder, Passes, Touches, AskedFrames,
         NoDup, EndsWith;
    if Touches(t, op, s) {
      assert asked + [] == asked;
      EndsWithNothing(asked);
      MovedTraced(Front(t.surf[s]), CachedCallbacks(t, s), t.surf[s].pending.callbacks, asked);
    } else {
      AskedTraced(Queue(t, s), t.surf[s].pending.callbacks, asked, AskedFrames(op, s));
    }
  }

  lemma EndsWithNothing(asked: seq<nat>)
    ensures EndsWith(asked, [])
  {
  }

  /** The two things that can happen to a queue: cached callbacks go, or come last. */
  lemma MovedTraced(front: seq<nat>, cached: seq<nat>, pending: seq<nat>, asked: seq<nat>)
    requires NoDup(front + cached + pending) && NoDup(asked) && EndsWith(asked, pending)
    requires forall c :: c in front + cached + pending ==> c in asked
    ensures NoDup(front + pending) && forall c :: c in front + pending ==> c in asked
    ensures NoDup(front + pending + cached) && forall c :: c in front + pending + cached ==> c in asked
    ensures cached != [] ==> front + pending != asked
    ensures cached != [] && pending != [] ==> front + pending + cached != asked
  {
    KeepsSame(front, cached, pending);
    Reordered(front, cached, pending);
    if cached != [] {
      Lost(front, cached, pending, asked);
      if pending != [] { Overtaken(front, cached, pending, asked); }
    }
  }

  lemma AskedTraced(queue: seq<nat>, pending: seq<nat>, asked: seq<nat>, more: seq<nat>)
    requires NoDup(queue) && NoDup(asked) && (forall c :: c in queue ==> c in asked) && EndsWith(asked, pending)
    requires |more| <= 1 && forall c :: c in more ==> c !in asked
    ensures NoDup(queue + more) && NoDup(asked + more) && (forall c :: c in queue + more ==> c in asked + more)
    ensures EndsWith(asked + more, pending + more)
  {
    if more == [] {
      assert queue + more == queue && asked + more == asked && pending + more == pending;
    } else {
      assert more == [more[0]];
      NoDupSnoc(queue, more[0]);
      NoDupSnoc(asked, more[0]);
    }
  }

  lemma NoDupSnoc(a: seq<nat>, x: nat)
    requires NoDup(a) && x !in a
    ensures NoDup(a + [x])
  {
    forall i, j | 0 <= i < j < |a + [x]| ensures (a + [x])[i] != (a + [x])[j] {
      assert (a + [x])[i] == a[i];
    }
  }

  lemma SameEnd(a: seq<nat>, b: seq<nat>, more: seq<nat>)
    ensures a + more == b + more <==> a == b
  {
    if a + more == b + more {
      assert |a| == |b| && a == (a + more)[..|a|] && b == (b + more)[..|b|];
    }
  }

  /** Once a queue differs from what was asked for, it differs for ever. */
  lemma {:induction false} BrokenStaysBroken(t: Tree, ops: seq<Op>, s: Surface, asked: seq<nat>)
    requires Traced(t, s, asked) && EnabledRun(t, ops) && DestroySurface(s) !in ops
    requires NoDup(asked + AskedFramesIn(ops, s)) && Queue(t, s) != asked
    ensures s in Run(t, ops).surf && Queue(Run(t, ops), s) != asked + AskedFramesIn(ops, s)
    decreases |ops|
  {
    if ops == [] {
      assert asked + [] == asked;
    } else {
      var more, rest := AskedFrames(ops[0], s), AskedFramesIn(ops[1..], s);
      Assoc(asked, more, rest);
      FrontOfNoDup(asked, more, rest);
      StepTraced(t, ops[0], s, asked);
      if KeepsOrder(t, ops[0], s) {
        OneKeepsOrder(t, ops[0], s);
        SameEnd(Queue(t, s), asked, more);
      }
      BrokenStaysBroken(Step(t, ops[0]), ops[1..], s, asked + more);
    }
  }

  lemma FrontOfNoDup(a: seq<nat>, b: seq<nat>, c: seq<nat>)
    requires NoDup(a + b + c)
    ensures NoDup(a + b) && forall x :: x in b ==> x !in a
  {
    var all := a + b + c;
    assert forall i :: 0 <= i < |a + b| ==> (a + b)[i] == all[i];
    forall x | x in b ensures x !in a {
      var j :| 0 <= j < |b| && b[j] == x;
      assert all[|a| + j] == x;
      forall i | 0 <= i < |a| ensures a[i] != x { assert all[i] == a[i]; }
    }
  }

  /** Over any run in which no callback is asked for twice: done, current, cached and pending callbacks are,
      in this order, all that were asked for, if and only if no operation of the run overwrote,
      overtook or dropped cached ones. */
  lemma {:induction false} CallbacksAreFifoIff(t: Tree, ops: seq<Op>, s: Surface, asked: seq<nat>)
    requires Traced(t, s, asked) && EnabledRun(t, ops) && DestroySurface(s) !in ops
    requires NoDup(asked + AskedFramesIn(ops, s)) && Queue(t, s) == asked
    ensures s in Run(t, ops).surf
    ensures Queue(Run(t, ops), s) == asked + AskedFramesIn(ops, s) <==> KeepsOrderThrough(t, ops, s)
    decreases |ops|
  {
    if ops == [] {
      assert asked + [] == asked;
    } else {
      var more, rest := AskedFrames(ops[0], s), AskedFramesIn(ops[1..], s);
      Assoc(asked, more, rest);
      FrontOfNoDup(asked, more, rest);
      StepTraced(t, ops[0], s, asked);
      if KeepsOrder(t, ops[0], s) {
        OneKeepsOrder(t, ops[0], s);
        CallbacksAreFifoIff(Step(t, ops[0]), ops[1..], s, asked + more);
      } else {
        BrokenStaysBroken(Step(t, ops[0]), ops[1..], s, asked + more);
      }
    }
  }

  /** The same from the creation of the surface. */
  lemma NewSurfaceIsFifoIff(t: Tree, s: Surface, ops: seq<Op>)
    requires Enabled(t, CreateSurface(s)) && EnabledRun(DoCreateSurface(t, s), ops)
    requires DestroySurface(s) !in ops && NoDup(AskedFramesIn(ops, s))
    ensures
      var start := DoCreateSurface(t, s);
      && s in Run(start, ops).surf
      && (Queue(Run(start, ops), s) == AskedFramesIn(ops, s) <==> KeepsOrderThrough(start, ops, s))
  {
    NewQueue(t, s);
    assert [] + AskedFramesIn(ops, s) == AskedFramesIn(ops, s);
    CallbacksAreFifoIff(DoCreateSurface(t, s), ops, s, []);
  }

  /** What keeps the order needs no such care: then no callback is lost, whatever their names. */
  lemma {:induction false} CallbacksAreFifo(t: Tree, ops: seq<Op>, s: Surface)
    requires Valid(t) && EnabledRun(t, ops) && s in t.surf && DestroySurface(s) !in ops
    requires KeepsOrderThrough(t, ops, s)
    ensures s in Run(t, ops).surf
    ensures Queue(Run(t, ops), s) == Queue(t, s) + AskedFramesIn(ops, s)
    decreases |ops|
  {
    if ops != [] {
      OneKeepsOrder(t, ops[0], s);
      CallbacksAreFifo(Step(t, ops[0]), ops[1..], s);
      Assoc(Queue(t, s), AskedFrames(ops[0], s), AskedFramesIn(ops[1..], s));
    }
  }

  lemma OneKeepsOrder(t: Tree, op: Op, s: Surface)
    requires Enabled(t, op) && s in t.surf && op != DestroySurface(s) && KeepsOrder(t, op, s)
    ensures s in Step(t, op).surf
    ensures Queue(Step(t, op), s) == Queue(t, s) + AskedFrames(op, s)
  {
    hide Step, Valid, Enabled, Queue, QueueAfter, PendingAfter, KeepsOrder, AskedFrames;
    StepQueue(t, op, s);
    KeptAfter(t, op, s);
  }

  lemma KeptAfter(t: Tree, op: Op, s: Surface)
    requires Enabled(t, op) && s in t.surf && KeepsOrder(t, op, s)
    ensures QueueAfter(t, op, s) == Queue(t, s) + AskedFrames(op, s)
  {
    if Touches(t, op, s) { Touched(t, op, s); } else { Untouched(t, op, s); }
    hide Step, Front, CachedCallbacks, Valid, Queue, QueueAfter, KeepsOrder, Passes, Touches, AskedFrames;
    KeepsSame(Front(t.surf[s]), CachedCallbacks(t, s), t.surf[s].pending.callbacks);
  }

  lemma Assoc(a: seq<nat>, b: seq<nat>, c: seq<nat>)
    ensures a + (b + c) == a + b + c
  {
  }

  /** A surface without a role keeps the order in any run. */
  lemma {:induction false} RootsKeepOrder(t: Tree, ops: seq<Op>, s: Surface)
    requires Valid(t) && EnabledRun(t, ops) && StaysRootThrough(t, ops, s)
    ensures DestroySurface(s) !in ops && KeepsOrderThrough(t, ops, s)
    decreases |ops|
  {
    if ops != [] {
      RootKeepsOrder(t, ops[0], s);
      StaysRootMeans(t, ops[0], s);
      RootsKeepOrder(Step(t, ops[0]), ops[1..], s);
    }
  }

  lemma RootKeepsOrder(t: Tree, op: Op, s: Surface)
    requires Enabled(t, op) && s in t.surf && t.shape.role[s] == null
    ensures KeepsOrder(t, op, s)
  {
    if op.DestroySubsurface? { assert SubsurfaceOk(t.shape, op.u); }
  }

  /** On a new surface that is never given a role, done, current and pending callbacks are always, in
      this order, all that were requested. */
  lemma RootCallbacksAreFifo(t: Tree, s: Surface, ops: seq<Op>)
    requires Enabled(t, CreateSurface(s)) && EnabledRun(DoCreateSurface(t, s), ops)
    requires StaysRootThrough(DoCreateSurface(t, s), ops, s)
    ensures
      var end := Run(DoCreateSurface(t, s), ops);
      && s in end.surf
      && DoneLog(end.surf[s].sent) + end.surf[s].current.callbacks + end.surf[s].pending.callbacks
         == AskedFramesIn(ops, s)
  {
    var start := DoCreateSurface(t, s);
    RootsKeepOrder(start, ops, s);
    CallbacksAreFifo(start, ops, s);
    RootRoleAtEnd(start, ops, s);
    NewQueue(t, s);
    RootQueue(Run(start, ops), s);
  }

  lemma NewQueue(t: Tree, s: Surface)
    requires Valid(t) && s !in t.surf
    ensures Queue(DoCreateSurface(t, s), s) == [] && DoCreateSurface(t, s).surf[s].pending.callbacks == []
  {
  }

  lemma RootQueue(t: Tree, s: Surface)
    requires Valid(t) && s in t.surf && t.shape.role[s] == null
    ensures Queue(t, s) == DoneLog(t.surf[s].sent) + t.surf[s].current.callbacks + t.surf[s].pending.callbacks
  {
  }

  lemma {:induction false} RootRoleAtEnd(t: Tree, ops: seq<Op>, s: Surface)
    requires Valid(t) && EnabledRun(t, ops) && StaysRootThrough(t, ops, s)
    ensures s in Run(t, ops).surf && Run(t, ops).shape.role[s] == null
    decreases |ops|
  {
    if ops != [] { RootRoleAtEnd(Step(t, ops[0]), ops[1..], s); }
  }
}
