/** Synchronized subsurfaces work in private: nothing they do shows until an ancestor applies it. */
module Isolation {
  import opened SurfaceTree

  /** Operations that must not show: requests, restacking, positions, new surfaces and roles, changes
      of a mode that flush nothing, and commits of effectively synchronized subsurfaces. */
  predicate Quiet(t: Tree, op: Op)
    requires Enabled(t, op)
  {
    match op
    case StateRequest(_, _) => true
    case SetPosition(_, _) => true
    case Place(_, _, _) => true
    case CreateSurface(_) => true
    case CreateSubsurface(_, _, _) => true
    case SetMode(u, m) => KeepsQuiet(t, u, m)
    case CommitSurface(s) => SyncedRole(t.shape, s)
    case _ => false
  }

  /** The mode stays, turns synchronized, or turns desynchronized below a surface that synchronizes. */
  predicate KeepsQuiet(t: Tree, u: Subsurface, m: Mode)
    requires Enabled(t, SetMode(u, m))
  {
    || m == Synchronized || t.shape.mode[u] == m
    || (assert SubsurfaceOk(PutMode(t, u, m).shape, u); SyncedRole(PutMode(t, u, m).shape, t.shape.parent[u]))
  }

  /** What the compositor shows of `a` it shows of `b`: current states and positions. */
  ghost predicate ShowsTheSame(a: Tree, b: Tree) {
    && (forall s :: s in a.surf ==> s in b.surf && b.surf[s].current == a.surf[s].current)
    && (forall u :: u in a.sub ==> u in b.sub && b.sub[u].pos == a.sub[u].pos)
  }

  lemma PlaceShowsNothing(t: Tree, u: Subsurface, sibling: Surface, dir: Direction)
    requires Valid(t) && u in t.sub && sibling in t.surf
    ensures ShowsTheSame(t, DoPlace(t, u, sibling, dir))
  {
    assert SubsurfaceOk(t.shape, u);
  }

  lemma AddChildShowsNothing(t: Tree, p: Surface, u: Subsurface)
    requires Valid(t) && p in t.surf && u in t.sub
    requires t.shape.parent[u] == p && t.shape.surface[u] != null
    requires u !in t.surf[p].pending.children && u !in CachedChildren(t, p)
    ensures ShowsTheSame(t, ChildAdded(t, p, u))
  {
  }

  lemma JoinShowsNothing(t: Tree, u: Subsurface, s: Surface, p: Surface)
    requires Enabled(t, CreateSubsurface(u, s, p))
    ensures ShowsTheSame(t, Joined(t, u, s, p))
  {
  }

  lemma CreateShowsNothing(t: Tree, u: Subsurface, s: Surface, p: Surface)
    requires Enabled(t, CreateSubsurface(u, s, p))
    ensures ShowsTheSame(t, DoCreateSubsurface(t, u, s, p))
  {
    hide ChildAdded, Joined, Attached, Valid;
    JoinedIsReady(t, u, s, p);
    JoinShowsNothing(t, u, s, p);
    AddChildShowsNothing(Joined(t, u, s, p), p, u);
  }

  lemma ParkShowsNothing(t: Tree, s: Surface)
    requires Valid(t) && s in t.surf && SyncedRole(t.shape, s)
    ensures ShowsTheSame(t, DoCommit(t, s))
  {
    assert RoleOk(t.shape, s);
  }

  lemma ModeShowsNothing(t: Tree, u: Subsurface, m: Mode)
    requires Enabled(t, SetMode(u, m)) && KeepsQuiet(t, u, m)
    ensures ShowsTheSame(t, DoSetMode(t, u, m))
  {
    hide Update;
    assert SubsurfaceOk(t.shape, u);
  }

  lemma RequestShowsNothing(t: Tree, s: Surface, r: Request)
    requires Valid(t) && s in t.surf
    ensures ShowsTheSame(t, DoRequest(t, s, r))
  {
  }

  lemma PositionShowsNothing(t: Tree, u: Subsurface, pos: Point)
    requires Valid(t) && u in t.sub
    ensures ShowsTheSame(t, DoSetPosition(t, u, pos))
  {
  }

  lemma NewSurfaceShowsNothing(t: Tree, s: Surface)
    requires Valid(t) && s !in t.surf
    ensures ShowsTheSame(t, DoCreateSurface(t, s))
  {
  }

  lemma QuietStep(t: Tree, op: Op)
    requires Enabled(t, op) && Quiet(t, op)
    ensures ShowsTheSame(t, Step(t, op))
  {
    hide DoCreateSurface, DoCreateSubsurface, DoPlace, DoSetPosition, DoCommit, DoRequest, DoSetMode, ShowsTheSame;
    match op {
      case StateRequest(s, r) => RequestShowsNothing(t, s, r);
      case Place(u, sibling, dir) => PlaceShowsNothing(t, u, sibling, dir);
      case CreateSubsurface(u, s, p) => CreateShowsNothing(t, u, s, p);
      case CommitSurface(s) => ParkShowsNothing(t, s);
      case SetMode(u, m) => ModeShowsNothing(t, u, m);
      case SetPosition(u, pos) => PositionShowsNothing(t, u, pos);
      case CreateSurface(s) => NewSurfaceShowsNothing(t, s);
    }
  }

  ghost predicate QuietRun(t: Tree, ops: seq<Op>)
    requires Valid(t) && EnabledRun(t, ops)
    decreases |ops|
  {
    ops != [] ==> Quiet(t, ops[0]) && QuietRun(Step(t, ops[0]), ops[1..])
  }

  /** No run of quiet operations changes what the tree shows. */
  lemma {:induction false} QuietRunsShowNothing(t: Tree, ops: seq<Op>)
    requires Valid(t) && EnabledRun(t, ops) && QuietRun(t, ops)
    ensures ShowsTheSame(t, Run(t, ops))
    decreases |ops|
  {
    if ops != [] {
      QuietStep(t, ops[0]);
      QuietRunsShowNothing(Step(t, ops[0]), ops[1..]);
    }
  }
}
