/** Who is whose child: the ties between surfaces and subsurfaces are told by the operations alone, and
    restacking puts a child next to the sibling that was named. */
module Family {
  import opened Seqs
  import opened Restack
  import opened SurfaceTree
  import RootSurface

  // ---------------------------------------------------------------- the ties

  /** The role of each surface; the surface, the parent and the mode of each subsurface. */
  datatype Ties = Ties(
    role: map<Surface, Subsurface?>,
    surface: map<Subsurface, Surface?>,
    parent: map<Subsurface, Surface?>,
    mode: map<Subsurface, Mode>)

  function TiesOf(sh: Shape): Ties {
    Ties(sh.role, sh.surface, sh.parent, sh.mode)
  }

  /** A destroyed surface leaves its subsurface without surface and parent, and its children without a
      parent; a destroyed subsurface leaves its surface without a role. */
  function Follow(f: Ties, op: Op): Ties {
    match op
    case CreateSurface(s) => f.(role := f.role[s := null])
    case CreateSubsurface(u, s, p) =>
      Ties(f.role[s := u], f.surface[u := s], f.parent[u := p], f.mode[u := Synchronized])
    case DestroySurface(s) =>
      Ties(f.role - {s},
           map v | v in f.surface :: if f.surface[v] == s then null else f.surface[v],
           map v | v in f.parent ::
             if f.parent[v] == s || (v in f.surface && f.surface[v] == s) then null else f.parent[v],
           f.mode)
    case DestroySubsurface(u) =>
      Ties(map x | x in f.role :: if f.role[x] == u then null else f.role[x],
           f.surface - {u}, f.parent - {u}, f.mode - {u})
    case SetMode(u, m) => f.(mode := f.mode[u := m])
    case _ => f
  }

  function FollowAll(f: Ties, ops: seq<Op>): Ties
    decreases |ops|
  {
    if ops == [] then f else FollowAll(Follow(f, ops[0]), ops[1..])
  }

  lemma CreateSubsurfaceTies(t: Tree, u: Subsurface, s: Surface, p: Surface)
    requires Enabled(t, CreateSubsurface(u, s, p))
    ensures TiesOf(DoCreateSubsurface(t, u, s, p).shape) == Follow(TiesOf(t.shape), CreateSubsurface(u, s, p))
  {
    hide Under, ChildAdded, Joined;
    assert DoCreateSubsurface(t, u, s, p).shape == Attached(t.shape, u, s, p);
  }

  lemma DestroySurfaceTies(t: Tree, s: Surface)
    requires Valid(t) && s in t.surf
    ensures TiesOf(DoDestroySurface(t, s).shape) == Follow(TiesOf(t.shape), DestroySurface(s))
  {
    RootSurface.DestroySurfaceShape(t, s);
    hide DoDestroySurface;
    BuriedTies(t.shape, s);
  }

  lemma BuriedTies(sh: Shape, s: Surface)
    requires ValidShape(sh) && s in sh.role
    ensures TiesOf(Buried(sh, s)) == Follow(TiesOf(sh), DestroySurface(s))
  {
    assert RoleOk(sh, s);
    forall v | v in sh.surface ensures sh.surface[v] == s <==> sh.role[s] == v {
      assert SubsurfaceOk(sh, v);
    }
    var a, b := TiesOf(Buried(sh, s)), Follow(TiesOf(sh), DestroySurface(s));
    assert a.surface == b.surface;
    assert a.parent == b.parent;
  }

  lemma DestroySubsurfaceTies(t: Tree, u: Subsurface)
    requires Valid(t) && u in t.sub
    ensures TiesOf(DoDestroySubsurface(t, u).shape) == Follow(TiesOf(t.shape), DestroySubsurface(u))
  {
    hide NowhereListed, SurfaceOk, CacheOk;
    assert DoDestroySubsurface(t, u).shape == Forgotten(t.shape, u);
    hide DoDestroySubsurface;
    ForgottenTies(t.shape, u);
  }

  lemma ForgottenTies(sh: Shape, u: Subsurface)
    requires ValidShape(sh) && u in sh.surface
    ensures TiesOf(Forgotten(sh, u)) == Follow(TiesOf(sh), DestroySubsurface(u))
  {
    assert SubsurfaceOk(sh, u);
    forall x | x in sh.role ensures sh.role[x] == u <==> sh.surface[u] == x { assert RoleOk(sh, x); }
    assert TiesOf(Forgotten(sh, u)).role == Follow(TiesOf(sh), DestroySubsurface(u)).role;
  }

  lemma OthersKeepTies(t: Tree, op: Op)
    requires Enabled(t, op)
    requires !op.CreateSurface? && !op.CreateSubsurface? && !op.DestroySurface? && !op.DestroySubsurface?
    requires !op.SetMode?
    ensures Step(t, op).shape == t.shape
  {
    hide Valid, DoRequest, DoCommit, DoSetPosition, DoPlace, DoBufferGone, Render, DoLock, DoAnswer, DoOutputGone,
         DoFeedbackGone;
  }

  lemma StepTies(t: Tree, op: Op)
    requires Enabled(t, op)
    ensures TiesOf(Step(t, op).shape) == Follow(TiesOf(t.shape), op)
  {
    hide TiesOf, DoCreateSubsurface, DoDestroySurface, DoDestroySubsurface, DoSetMode;
    match op {
      case CreateSurface(s) => CreateSurfaceTies(t, s);
      case CreateSubsurface(u, s, p) => CreateSubsurfaceTies(t, u, s, p);
      case DestroySurface(s) => DestroySurfaceTies(t, s);
      case DestroySubsurface(u) => DestroySubsurfaceTies(t, u);
      case SetMode(u, m) => SetModeTies(t, u, m);
      case _ => OthersKeepTies(t, op);
    }
  }

  lemma CreateSurfaceTies(t: Tree, s: Surface)
    requires Valid(t) && s !in t.surf
    ensures TiesOf(DoCreateSurface(t, s).shape) == Follow(TiesOf(t.shape), CreateSurface(s))
  {
  }

  lemma SetModeTies(t: Tree, u: Subsurface, m: Mode)
    requires Enabled(t, SetMode(u, m))
    ensures TiesOf(DoSetMode(t, u, m).shape) == Follow(TiesOf(t.shape), SetMode(u, m))
  {
    hide DoSetMode;
    RootSurface.SetModeShape(t, u, m);
  }

  /** Over every run the ties are those that the operations made, and no update, request or answer
      changes any of them. */
  lemma {:induction false} TiesFollowOperations(t: Tree, ops: seq<Op>)
    requires Valid(t) && EnabledRun(t, ops)
    ensures TiesOf(Run(t, ops).shape) == FollowAll(TiesOf(t.shape), ops)
    decreases |ops|
  {
    hide Step, Enabled, TiesOf, Follow, Valid;
    if ops != [] {
      StepTies(t, ops[0]);
      TiesFollowOperations(Step(t, ops[0]), ops[1..]);
    }
  }

  // ---------------------------------------------------------------- stacking

  /** The child stands next to the other one, on the side that was asked for. */
  ghost predicate NextTo(list: seq<Subsurface>, u: Subsurface, other: Subsurface, dir: Direction) {
    if dir == Above then Adjacent(list, other, u) else Adjacent(list, u, other)
  }

  ghost predicate AtTheEnd(list: seq<Subsurface>, u: Subsurface, dir: Direction) {
    list != [] && u == if dir == Above then list[|list| - 1] else list[0]
  }

  /** What a request to place `u` makes of the pending list of its parent: next to the sibling that was
      named, on top or at the bottom when that is the parent, and as it was when it is neither. */
  lemma PlaceStacks(t: Tree, u: Subsurface, sibling: Surface, dir: Direction)
    requires Enabled(t, Place(u, sibling, dir)) && t.shape.parent[u] != null
    ensures t.shape.parent[u] in t.surf
    ensures
      var p, r := t.shape.parent[u], DoPlace(t, u, sibling, dir);
      var before, after, v := t.surf[p].pending.children, r.surf[p].pending.children, t.shape.role[sibling];
      && Restacks(before, after, u)
      && (if u !in before then after == before
          else if sibling == p then AtTheEnd(after, u, dir)
          else if v != null && v != u && v in before then NextTo(after, u, v, dir)
          else after == before)
      && (after != before ==> ChildrenSet in r.surf[p].pending.updates)
      && r.surf[p].current == t.surf[p].current
  {
    assert SubsurfaceOk(t.shape, u);
    var p := t.shape.parent[u];
    SourceIsOk(t, p, FromPending);
    PlacesInList(t.surf[p].pending.children, u, SiblingOf(t.shape, p, sibling), dir);
    hide Valid, Raise, Lower, NoDup, Without;
  }

  /** Both directions at once, for a list and a sibling as the parent sees them. */
  lemma PlacesInList(list: seq<Subsurface>, u: Subsurface, at: Sibling<Subsurface>, dir: Direction)
    requires NoDup(list)
    ensures
      var o := if dir == Above then Raise(list, u, at) else Lower(list, u, at);
      && Restacks(list, o.list, u) && (!o.changed ==> o.list == list)
      && (u in list && at.TheParent? ==> AtTheEnd(o.list, u, dir))
      && (u in list && at.Role? && at.sub in list && at.sub != u ==> NextTo(o.list, u, at.sub, dir))
      && (u !in list || at.NoSubsurface? || (at.Role? && (at.sub !in list || at.sub == u)) ==> o.list == list)
  {
    RaiseRestacks(list, u, at);
    LowerRestacks(list, u, at);
    RaisePlaces(list, u, at);
    LowerPlaces(list, u, at);
    if u in list && at.Role? && at.sub in list && at.sub != u { assert |list| > 1 by { TwoInList(list, u, at.sub); } }
    hide Raise, Lower, NoDup, Without;
  }

  lemma TwoInList(list: seq<Subsurface>, a: Subsurface, b: Subsurface)
    requires a in list && b in list && a != b
    ensures |list| > 1
  {
    var i :| 0 <= i < |list| && list[i] == a;
    var j :| 0 <= j < |list| && list[j] == b;
  }
}
