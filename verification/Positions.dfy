/** Where a subsurface is: a position that a client asks for waits until an update reaches the subsurface. */
module Positions {
  import opened Seqs
  import opened SurfaceTree
  import opened AtomicCommit

  /** Where the subsurface is, and where it will be with the next update. */
  datatype Spot = Spot(pos: Point, waiting: Option<Point>)

  function SpotOf(t: Tree, u: Subsurface): Spot
    requires u in t.sub
  {
    var r := t.sub[u];
    Spot(r.pos, if r.scheduledPosChange then Some(r.scheduledPos) else None)
  }

  datatype Event = Moves(pos: Point) | Arrives | Stays

  /** Asking for the position it has does nothing; it takes no earlier request back either. */
  function Advance(g: Spot, e: Event): Spot {
    match e
    case Moves(p) => if p == g.pos then g else Spot(g.pos, Some(p))
    case Arrives => if g.waiting.Some? then Spot(g.waiting.value, None) else g
    case Stays => g
  }

  /** What an operation is to `u`, told before it. */
  function EventAt(t: Tree, op: Op, u: Subsurface): Event
    requires Enabled(t, op) && u in t.sub
  {
    match op
    case SetPosition(v, p) => if v == u then Moves(p) else Stays
    case CommitSurface(s) => if !SyncedRole(t.shape, s) && ReachesSub(t, s, FromPending, u) then Arrives else Stays
    case SetMode(v, m) => if FlushReaches(t, v, m, u) then Arrives else Stays
    case _ => Stays
  }

  /** An update of `s` comes to `u` from above. */
  predicate ReachesSub(t: Tree, s: Surface, from: Source, u: Subsurface)
    requires Valid(t) && s in t.surf && u in t.sub
    requires from == FromCached ==> t.shape.role[s] != null
  {
    assert SubsurfaceOk(t.shape, u);
    var x := t.shape.surface[u];
    x != null && x != s && WillReach(t, s, from, x)
  }

  predicate FlushReaches(t: Tree, v: Subsurface, m: Mode, u: Subsurface)
    requires Valid(t) && v in t.sub && u in t.sub
  {
    assert SubsurfaceOk(t.shape, v);
    Flushes(t, v, m) && ReachesSub(Shown(t, v), t.shape.surface[v], FromCached, u)
  }

  ghost predicate Same(t: Tree, r: Tree, u: Subsurface) {
    u in t.sub && u in r.sub && SpotOf(r, u) == SpotOf(t, u)
  }

  // ---------------------------------------------------------------- updates

  /** An update that comes to `u` gives it the position that waits, and leaves none waiting; any other
      leaves `u` where it is. */
  lemma UpdateSpot(t: Tree, r: Tree, s: Surface, from: Source, u: Subsurface)
    requires Updated(t, r, s, from) && u in t.sub
    ensures u in r.sub && SpotOf(r, u) == Advance(SpotOf(t, u), if ReachesSub(t, s, from, u) then Arrives else Stays)
  {
    assert SubsurfaceOk(t.shape, u);
    var x := t.shape.surface[u];
    if x != null { ReachIsKnownBefore(t, r, s, from, x); }
    assert r.sub[u] == ExpectedSub(t, r, s, from, u);
  }

  lemma CommitSpot(t: Tree, s: Surface, u: Subsurface)
    requires Valid(t) && s in t.surf && u in t.sub
    ensures u in DoCommit(t, s).sub
    ensures SpotOf(DoCommit(t, s), u) == Advance(SpotOf(t, u), EventAt(t, CommitSurface(s), u))
  {
    if SyncedRole(t.shape, s) {
      assert RoleOk(t.shape, s);
    } else {
      hide DoCommit, Advance, SpotOf;
      CommitIsAtomic(t, s);
      UpdateSpot(t, DoCommit(t, s), s, FromPending, u);
    }
  }

  lemma SetModeSpot(t: Tree, v: Subsurface, m: Mode, u: Subsurface)
    requires Enabled(t, SetMode(v, m)) && u in t.sub
    ensures u in DoSetMode(t, v, m).sub
    ensures SpotOf(DoSetMode(t, v, m), u) == Advance(SpotOf(t, u), EventAt(t, SetMode(v, m), u))
  {
    hide DoSetMode, Shown, Advance, ReachesSub;
    FlushIsAtomic(t, v, m);
    assert SubsurfaceOk(t.shape, v);
    if Flushes(t, v, m) {
      ShownMovesNothing(t, v);
      UpdateSpot(Shown(t, v), DoSetMode(t, v, m), t.shape.surface[v], FromCached, u);
    } else {
      StaysPut(SpotOf(t, u));
    }
  }

  lemma ShownMovesNothing(t: Tree, v: Subsurface)
    requires Valid(t) && v in t.sub && t.shape.parent[v] != null
    ensures Shown(t, v).sub == t.sub
  {
    assert SubsurfaceOk(t.shape, v);
  }

  lemma StaysPut(g: Spot)
    ensures Advance(g, Stays) == g
  {
  }

  // ---------------------------------------------------------------- the other operations

  lemma RecordSame(t: Tree, op: Op, u: Subsurface)
    requires Enabled(t, op) && u in t.sub
    requires op.StateRequest? || op.LockPresentation? || op.AnswerPresentation? || op.OutputGone? || op.CreateSurface?
    ensures Same(t, Step(t, op), u)
  {
    hide Valid;
  }

  lemma PlaceSame(t: Tree, v: Subsurface, sibling: Surface, dir: Direction, u: Subsurface)
    requires Enabled(t, Place(v, sibling, dir)) && u in t.sub
    ensures Same(t, DoPlace(t, v, sibling, dir), u)
  {
    hide Restacked;
    assert SubsurfaceOk(t.shape, v);
  }

  lemma BufferGoneSame(t: Tree, s: Surface, b: Buffer, u: Subsurface)
    requires Valid(t) && s in t.surf && u in t.sub
    ensures Same(t, DoBufferGone(t, s, b), u)
  {
    assert RoleOk(t.shape, s);
  }

  lemma FeedbackGoneSame(t: Tree, s: Surface, place: Place, fb: nat, u: Subsurface)
    requires Valid(t) && s in t.surf && fb in Held(t, s, place) && u in t.sub
    ensures Same(t, DoFeedbackGone(t, s, place, fb), u)
  {
    hide Dropped;
    assert RoleOk(t.shape, s);
  }

  lemma RenderKeepsSubs(t: Tree, s: Surface)
    requires Valid(t) && s in t.surf
    ensures Render(t, s).sub == t.sub
    decreases t.shape.bound - (if s in t.shape.depth then t.shape.depth[s] else 0), 1, 0
  {
    hide CacheOk, SubsurfaceOk;
    SourceIsOk(t, s, FromPending);
    RenderAllKeepsSubs(PutSurface(t, s, Drained(t.surf[s])), s, t.surf[s].current.children);
  }

  lemma {:induction false} RenderAllKeepsSubs(t: Tree, p: Surface, list: seq<Subsurface>)
    requires Valid(t) && p in t.surf && ChildrenOk(t.shape, p, list)
    ensures RenderAll(t, p, list).sub == t.sub
    decreases t.shape.bound - (if p in t.shape.depth then t.shape.depth[p] else 0), 0, |list|
  {
    if list != [] {
      assert SubsurfaceOk(t.shape, list[0]);
      RenderKeepsSubs(t, t.shape.surface[list[0]]);
      RenderAllKeepsSubs(Render(t, t.shape.surface[list[0]]), p, list[1..]);
    }
  }

  lemma CreateSubsurfaceSame(t: Tree, v: Subsurface, s: Surface, p: Surface, u: Subsurface)
    requires Enabled(t, CreateSubsurface(v, s, p)) && u in t.sub
    ensures Same(t, DoCreateSubsurface(t, v, s, p), u)
    ensures v in DoCreateSubsurface(t, v, s, p).sub
    ensures SpotOf(DoCreateSubsurface(t, v, s, p), v) == Spot(Point(0, 0), None)
  {
    JoinedIsReady(t, v, s, p);
    hide Attached, Under, Valid;
    assert Joined(t, v, s, p).sub == t.sub[v := SubRec(Point(0, 0), Point(0, 0), false, Blank([]))];
    hide Joined;
    AddChildSame(Joined(t, v, s, p), p, v, u);
    AddChildSame(Joined(t, v, s, p), p, v, v);
  }

  lemma AddChildSame(t: Tree, p: Surface, v: Subsurface, u: Subsurface)
    requires Valid(t) && p in t.surf && v in t.sub && u in t.sub
    requires t.shape.parent[v] == p && t.shape.surface[v] != null
    requires v !in t.surf[p].pending.children && v !in CachedChildren(t, p)
    ensures Same(t, ChildAdded(t, p, v), u)
  {
    assert RoleOk(t.shape, p);
  }

  lemma DetachSame(t: Tree, v: Subsurface, u: Subsurface)
    requires Valid(t) && v in t.sub && u in t.sub
    ensures Same(t, Detach(t, v), u) && v in Detach(t, v).sub
  {
    hide Without, NowhereListed;
    assert SubsurfaceOk(t.shape, v);
    if t.shape.parent[v] != null { assert RoleOk(t.shape, t.shape.parent[v]); }
  }

  lemma DestroySurfaceSame(t: Tree, s: Surface, u: Subsurface)
    requires Valid(t) && s in t.surf && u in t.sub
    ensures Same(t, DoDestroySurface(t, s), u)
  {
    hide Detach, NowhereListed, Buried;
    assert RoleOk(t.shape, s);
    if t.shape.role[s] != null { DetachSame(t, t.shape.role[s], u); }
  }

  lemma DestroySubsurfaceSame(t: Tree, v: Subsurface, u: Subsurface)
    requires Valid(t) && v in t.sub && u in t.sub && u != v
    ensures Same(t, DoDestroySubsurface(t, v), u)
  {
    hide Detach, DropCache, NowhereListed, Forgotten;
    DetachSame(t, v, u);
    DropCacheIs(Detach(t, v), v);
  }

  lemma OthersStay(t: Tree, op: Op, u: Subsurface)
    requires Enabled(t, op) && u in t.sub && op != DestroySubsurface(u)
    requires !op.SetPosition? && !op.CommitSurface? && !op.SetMode?
    ensures Same(t, Step(t, op), u)
  {
    hide DoCreateSubsurface, DoDestroySurface, DoDestroySubsurface, DoPlace, DoBufferGone, Render, DoFeedbackGone;
    match op {
      case CreateSubsurface(v, s, p) => CreateSubsurfaceSame(t, v, s, p, u);
      case DestroySurface(s) => DestroySurfaceSame(t, s, u);
      case DestroySubsurface(v) => DestroySubsurfaceSame(t, v, u);
      case Place(v, sibling, dir) => PlaceSame(t, v, sibling, dir, u);
      case BufferGone(s, b) => BufferGoneSame(t, s, b, u);
      case FrameRendered(s) => RenderKeepsSubs(t, s);
      case FeedbackGone(s, place, fb) => FeedbackGoneSame(t, s, place, fb, u);
      case _ => RecordSame(t, op, u);
    }
  }

  // ---------------------------------------------------------------- every operation, every run

  /** Every operation moves a subsurface as its event says, and no other way. */
  lemma StepMoves(t: Tree, op: Op, u: Subsurface)
    requires Enabled(t, op) && u in t.sub && op != DestroySubsurface(u)
    ensures u in Step(t, op).sub && SpotOf(Step(t, op), u) == Advance(SpotOf(t, u), EventAt(t, op, u))
  {
    hide SpotOf, Advance, DoCommit, DoSetMode, DoSetPosition, ReachesSub, FlushReaches;
    match op {
      case CommitSurface(s) => CommitSpot(t, s, u);
      case SetMode(v, m) => SetModeSpot(t, v, m, u);
      case SetPosition(v, pos) => SetPositionSpot(t, v, pos, u);
      case _ =>
        OthersStay(t, op, u);
        StaysPut(SpotOf(t, u));
    }
  }

  lemma SetPositionSpot(t: Tree, v: Subsurface, pos: Point, u: Subsurface)
    requires Valid(t) && v in t.sub && u in t.sub
    ensures u in DoSetPosition(t, v, pos).sub
    ensures SpotOf(DoSetPosition(t, v, pos), u) == Advance(SpotOf(t, u), if v == u then Moves(pos) else Stays)
  {
  }

  /** What a run is to `u`, step by step. */
  function EventsOf(t: Tree, ops: seq<Op>, u: Subsurface): seq<Event>
    requires Valid(t) && EnabledRun(t, ops) && u in t.sub && DestroySubsurface(u) !in ops
    decreases |ops|
  {
    if ops == [] then []
    else
      StepMoves(t, ops[0], u);
      [EventAt(t, ops[0], u)] + EventsOf(Step(t, ops[0]), ops[1..], u)
  }

  function AdvanceAll(g: Spot, events: seq<Event>): Spot
    decreases |events|
  {
    if events == [] then g else AdvanceAll(Advance(g, events[0]), events[1..])
  }

  /** Over every run the position of a subsurface, and what waits, are those that its events leave. */
  lemma {:induction false} PositionsFollowEvents(t: Tree, ops: seq<Op>, u: Subsurface)
    requires Valid(t) && EnabledRun(t, ops) && u in t.sub && DestroySubsurface(u) !in ops
    ensures u in Run(t, ops).sub && SpotOf(Run(t, ops), u) == AdvanceAll(SpotOf(t, u), EventsOf(t, ops, u))
    decreases |ops|
  {
    if ops != [] {
      StepMoves(t, ops[0], u);
      hide Step, Enabled, SpotOf, EventAt, Valid, Advance;
      PositionsFollowEvents(Step(t, ops[0]), ops[1..], u);
      var events := EventsOf(t, ops, u);
      assert events[0] == EventAt(t, ops[0], u) && events[1..] == EventsOf(Step(t, ops[0]), ops[1..], u);
    }
  }

  lemma {:induction false} AdvanceAppend(g: Spot, a: seq<Event>, b: seq<Event>)
    ensures AdvanceAll(g, a + b) == AdvanceAll(AdvanceAll(g, a), b)
    decreases |a|
  {
    if a == [] {
      assert a + b == b;
    } else {
      assert (a + b)[0] == a[0] && (a + b)[1..] == a[1..] + b;
      AdvanceAppend(Advance(g, a[0]), a[1..], b);
    }
  }

  /** No request in the list asks for another position than `pos`, and no update arrives. */
  ghost predicate Idle(events: seq<Event>, pos: Point) {
    forall e :: e in events ==> e == Stays || e == Moves(pos)
  }

  ghost predicate Unreached(events: seq<Event>) {
    forall e :: e in events ==> !e.Arrives?
  }

  lemma {:induction false} IdleKeeps(g: Spot, events: seq<Event>)
    requires Idle(events, g.pos)
    ensures AdvanceAll(g, events) == g
    decreases |events|
  {
    if events != [] {
      assert events[0] in events;
      assert forall e :: e in events[1..] ==> e in events;
      IdleKeeps(g, events[1..]);
    }
  }

  lemma {:induction false} UnreachedKeepsPosition(g: Spot, events: seq<Event>)
    requires Unreached(events)
    ensures AdvanceAll(g, events).pos == g.pos
    decreases |events|
  {
    if events != [] {
      assert events[0] in events;
      assert forall e :: e in events[1..] ==> e in events;
      UnreachedKeepsPosition(Advance(g, events[0]), events[1..]);
    }
  }

  /** The position is the one of the last request that took effect, that is asked for another place than
      the current one, before the last update that reached the subsurface; however many requests came
      before it, and whatever came after. */
  lemma LastMoveShows(g: Spot, before: seq<Event>, p: Point, between: seq<Event>, after: seq<Event>)
    requires p != AdvanceAll(g, before).pos
    requires Idle(between, AdvanceAll(g, before).pos) && Unreached(after)
    ensures AdvanceAll(g, before + [Moves(p)] + between + [Arrives] + after).pos == p
    ensures AdvanceAll(g, before + [Moves(p)] + between + [Arrives]) == Spot(p, None)
  {
    var g1 := AdvanceAll(g, before);
    AdvanceAppend(g, before, [Moves(p)]);
    assert AdvanceAll(g1, [Moves(p)]) == Spot(g1.pos, Some(p)) by { assert [Moves(p)][1..] == []; }
    AdvanceAppend(g, before + [Moves(p)], between);
    IdleKeeps(Spot(g1.pos, Some(p)), between);
    AdvanceAppend(g, before + [Moves(p)] + between, [Arrives]);
    assert AdvanceAll(Spot(g1.pos, Some(p)), [Arrives]) == Spot(p, None) by { assert [Arrives][1..] == []; }
    AdvanceAppend(g, before + [Moves(p)] + between + [Arrives], after);
    UnreachedKeepsPosition(Spot(p, None), after);
  }

  /** The same of the tree: a run in which `u` is asked to move, and the last update to reach it comes
      later, ends with `u` where it was asked to be. */
  lemma RunEndsWhereAsked(t: Tree, ops: seq<Op>, u: Subsurface, before: seq<Event>, p: Point, between: seq<Event>,
                          after: seq<Event>)
    requires Valid(t) && EnabledRun(t, ops) && u in t.sub && DestroySubsurface(u) !in ops
    requires EventsOf(t, ops, u) == before + [Moves(p)] + between + [Arrives] + after
    requires p != AdvanceAll(SpotOf(t, u), before).pos
    requires Idle(between, AdvanceAll(SpotOf(t, u), before).pos) && Unreached(after)
    ensures u in Run(t, ops).sub && Run(t, ops).sub[u].pos == p
  {
    hide EventsOf, AdvanceAll, Idle, Unreached, EnabledRun, Valid;
    PositionsFollowEvents(t, ops, u);
    LastMoveShows(SpotOf(t, u), before, p, between, after);
  }

  /** One request and one commit: the subsurface is at the place asked for, and nothing is left waiting,
      if and only if the commit reaches it or it was there and nothing waited. */
  lemma MoveShowsWithCommit(t: Tree, u: Subsurface, p: Point, s: Surface)
    requires Valid(t) && u in t.sub && s in t.surf && !SyncedRole(t.shape, s) && p != t.sub[u].pos
    ensures
      var r := DoCommit(DoSetPosition(t, u, p), s);
      && u in r.sub
      && if t.shape.surface[u] != null && t.shape.surface[u] in r.surf && t.shape.surface[u] != s
            && Reached(r, s, t.shape.surface[u])
         then r.sub[u].pos == p && !r.sub[u].scheduledPosChange
         else r.sub[u].pos == t.sub[u].pos && r.sub[u].scheduledPosChange && r.sub[u].scheduledPos == p
  {
    hide DoCommit, Reached, WillReach;
    var a := DoSetPosition(t, u, p);
    SetPositionSpot(t, u, p, u);
    hide DoSetPosition;
    CommitIsAtomic(a, s);
    CommitSpot(a, s, u);
    assert SubsurfaceOk(a.shape, u);
    var x := a.shape.surface[u];
    if x != null { ReachIsKnownBefore(a, DoCommit(a, s), s, FromPending, x); }
  }
}
