/** What one walk over a list of children does to every surface of the tree, stated without recursion
    over the lists: who is reached, who takes its cached state, and who is marked by an unmap. */
module TreeWalk {
  import opened Seqs
  import opened SurfaceTree

  // ---------------------------------------------------------------- dropping the force argument

  /** The walk of a server whose `applyCached` has no `force` argument. */
  function PlainWalk(t: Tree, p: Surface, list: seq<Subsurface>): (r: Tree)
    requires Valid(t) && p in t.surf && ChildrenOk(t.shape, p, list)
    ensures r.shape == t.shape && Valid(r)
    decreases t.shape.bound - t.shape.depth[p], |list|
  {
    if list == [] then t
    else
      var c := list[0];
      assert SubsurfaceOk(t.shape, c);
      var s := t.shape.surface[c];
      var visited := Visit(t, c, false);
      SourceIsOk(visited, s, FromPending);
      PlainWalk(PlainWalk(visited, s, visited.surf[s].current.children), p, list[1..])
  }

  /** A child of an effectively synchronized subsurface is effectively synchronized. */
  lemma SyncIsInherited(sh: Shape, p: Surface, c: Subsurface)
    requires ValidShape(sh) && p in sh.role && c in sh.surface && sh.parent[c] == p
    ensures SyncedRole(sh, p) ==> IsSync(sh, c)
  {
    assert RoleOk(sh, p);
  }

  lemma ForcedVisit(t: Tree, c: Subsurface, force: bool)
    requires Valid(t) && c in t.sub && t.shape.surface[c] != null && (force ==> IsSync(t.shape, c))
    ensures Visit(t, c, force) == Visit(t, c, false)
  {
    hide Own, Positioned;
  }

  /** Forcing reaches only effectively synchronized subsurfaces, so it changes nothing. */
  lemma {:induction false} ForceIsRedundant(t: Tree, p: Surface, list: seq<Subsurface>, force: bool)
    requires Valid(t) && p in t.surf && ChildrenOk(t.shape, p, list)
    requires force ==> SyncedRole(t.shape, p)
    ensures Walk(t, p, list, force) == PlainWalk(t, p, list)
    decreases t.shape.bound - t.shape.depth[p], |list|
  {
    hide Visit;
    if list != [] {
      var c := list[0];
      assert SubsurfaceOk(t.shape, c);
      var s := t.shape.surface[c];
      SyncIsInherited(t.shape, p, c);
      ForcedVisit(t, c, force);
      var visited := Visit(t, c, false);
      SourceIsOk(visited, s, FromPending);
      var children := visited.surf[s].current.children;
      ForceIsRedundant(visited, s, children, IsSync(t.shape, c));
      ForceIsRedundant(PlainWalk(visited, s, children), p, list[1..], force);
    }
  }

  // ---------------------------------------------------------------- positions in the tree

  /** The child of `p` that `x` belongs to, if `x` lies below `p`. */
  function Branch(sh: Shape, p: Surface, x: Surface): (r: Subsurface?)
    requires ValidShape(sh) && x in sh.role
    ensures r != null ==>
      && r in sh.surface && sh.parent[r] == p && sh.surface[r] != null
      && p in sh.depth && sh.surface[r] in sh.depth
      && sh.depth[p] < sh.depth[sh.surface[r]] <= sh.depth[x]
    decreases sh.depth[x]
  {
    assert RoleOk(sh, x);
    var u := sh.role[x];
    if u == null || sh.parent[u] == null then null
    else
      assert SubsurfaceOk(sh, u);
      if sh.parent[u] == p then u else Branch(sh, p, sh.parent[u])
  }

  /** Below the child of `p` it belongs to, every link from `x` upwards is in a current children list. */
  predicate Linked(t: Tree, p: Surface, x: Surface)
    requires Valid(t) && x in t.surf
    decreases t.shape.depth[x]
  {
    assert RoleOk(t.shape, x);
    var u := t.shape.role[x];
    if u == null || t.shape.parent[u] == null then false
    else
      assert SubsurfaceOk(t.shape, u);
      var q := t.shape.parent[u];
      q == p || (u in t.surf[q].current.children && Linked(t, p, q))
  }

  lemma {:induction false} BranchSplit(sh: Shape, p: Surface, c: Subsurface, x: Surface)
    requires ValidShape(sh) && x in sh.role && c in sh.surface
    requires sh.parent[c] == p && sh.surface[c] != null
    ensures Branch(sh, p, x) == c <==> x == sh.surface[c] || Branch(sh, sh.surface[c], x) != null
    decreases if x in sh.depth then sh.depth[x] else 0
  {
    assert RoleOk(sh, x) && SubsurfaceOk(sh, c);
    var u := sh.role[x];
    if u != null && sh.parent[u] != null {
      assert SubsurfaceOk(sh, u);
      if sh.parent[u] != p {
        BranchSplit(sh, p, c, sh.parent[u]);
      }
    }
  }

  lemma {:induction false} LinkedSplit(t: Tree, p: Surface, c: Subsurface, x: Surface)
    requires Valid(t) && x in t.surf && c in t.sub
    requires t.shape.parent[c] == p && t.shape.surface[c] != null
    requires Branch(t.shape, p, x) == c && x != t.shape.surface[c]
    ensures t.shape.surface[c] in t.surf
    ensures Linked(t, p, x) <==>
      && Branch(t.shape, t.shape.surface[c], x) in t.surf[t.shape.surface[c]].current.children
      && Linked(t, t.shape.surface[c], x)
    decreases if x in t.shape.depth then t.shape.depth[x] else 0
  {
    assert RoleOk(t.shape, x) && SubsurfaceOk(t.shape, c);
    var u := t.shape.role[x];
    assert SubsurfaceOk(t.shape, u);
    var q := t.shape.parent[u];
    if q != t.shape.surface[c] {
      LinkedSplit(t, p, c, q);
    } else {
      assert RoleOk(t.shape, q);
    }
  }

  lemma {:induction false} LinkedIsBelow(t: Tree, p: Surface, x: Surface)
    requires Valid(t) && x in t.surf && Linked(t, p, x)
    ensures Branch(t.shape, p, x) != null
    decreases if x in t.shape.depth then t.shape.depth[x] else 0
  {
    assert RoleOk(t.shape, x);
    var u := t.shape.role[x];
    assert SubsurfaceOk(t.shape, u);
    if t.shape.parent[u] != p { LinkedIsBelow(t, p, t.shape.parent[u]); }
  }

  /** Links below `p` depend only on the children lists of the surfaces below `p`. */
  lemma {:induction false} LinkedStable(a: Tree, b: Tree, p: Surface, x: Surface)
    requires Valid(a) && Valid(b) && a.shape == b.shape && x in a.surf
    requires forall q :: q in a.surf && Branch(a.shape, p, q) != null ==>
      a.surf[q].current.children == b.surf[q].current.children
    ensures Linked(a, p, x) == Linked(b, p, x)
    decreases if x in a.shape.depth then a.shape.depth[x] else 0
  {
    assert RoleOk(a.shape, x);
    var u := a.shape.role[x];
    if u != null && a.shape.parent[u] != null {
      assert SubsurfaceOk(a.shape, u);
      var q := a.shape.parent[u];
      if q != p {
        LinkedStable(a, b, p, q);
        if Linked(a, p, q) { LinkedIsBelow(a, p, q); }
      }
    }
  }

  /** Marks above `y` are on surfaces that `y` lies below. */
  lemma {:induction false} MarkedIsAbove(sh: Shape, p: Surface, x: Surface, y: Surface)
    requires ValidShape(sh) && y in sh.role && x in MarkedAbove(sh, y) && x in sh.role
    ensures Branch(sh, p, x) != null ==> Branch(sh, p, y) == Branch(sh, p, x)
    decreases if y in sh.depth then sh.depth[y] else 0
  {
    assert RoleOk(sh, y);
    var u := sh.role[y];
    assert SubsurfaceOk(sh, u);
    var q := sh.parent[u];
    if x != q { MarkedIsAbove(sh, p, x, q); }
  }

  // ---------------------------------------------------------------- what a walk did

  /** The walk over `list` that ended in `r` came to the surface `x`. */
  predicate Visited(r: Tree, p: Surface, list: seq<Subsurface>, x: Surface)
    requires Valid(r) && x in r.surf
  {
    Branch(r.shape, p, x) in list && Linked(r, p, x)
  }

  /** It came to `x` and made it take its cached state. */
  predicate Applied(r: Tree, p: Surface, list: seq<Subsurface>, x: Surface)
    requires Valid(r) && x in r.surf
  {
    Visited(r, p, list, x) && SyncedRole(r.shape, x)
  }

  /** The cached state of a surface with a subsurface role. */
  function CachedOf(t: Tree, x: Surface): SurfaceState
    requires Valid(t) && x in t.surf && t.shape.role[x] != null
  {
    SourceState(t, x, FromCached)
  }

  /** The record of `x` after the walk, leaving marks aside. */
  function Base(t: Tree, r: Tree, p: Surface, list: seq<Subsurface>, x: Surface): SurfaceRec
    requires Valid(t) && Valid(r) && t.shape == r.shape && x in t.surf
  {
    if Applied(r, p, list, x) then Taken(t.surf[x], CachedOf(t, x)) else t.surf[x]
  }

  predicate ButUpdates(a: SurfaceRec, b: SurfaceRec) {
    b == a.(current := a.current.(updates := b.current.updates))
  }

  ghost predicate SurfaceDid(t: Tree, r: Tree, p: Surface, list: seq<Subsurface>, x: Surface)
    requires Valid(t) && Valid(r) && t.shape == r.shape && x in t.surf
  {
    ButUpdates(Base(t, r, p, list, x), r.surf[x])
  }

  /** A subsurface takes its scheduled position when the walk comes to it, and gives up its cache when
      its surface takes it. */
  ghost predicate SubDid(t: Tree, r: Tree, p: Surface, list: seq<Subsurface>, u: Subsurface)
    requires Valid(t) && Valid(r) && t.shape == r.shape && u in t.sub
  {
    assert SubsurfaceOk(t.shape, u);
    var x := t.shape.surface[u];
    if x == null then r.sub[u] == t.sub[u]
    else
      var placed := if Visited(r, p, list, x) then Positioned(t.sub[u]) else t.sub[u];
      r.sub[u] == if Applied(r, p, list, x) then placed.(cached := Blank(r.surf[x].current.children)) else placed
  }

  ghost predicate WalkDid(t: Tree, r: Tree, p: Surface, list: seq<Subsurface>) {
    && Valid(t) && Valid(r) && t.shape == r.shape
    && (forall x {:trigger SurfaceDid(t, r, p, list, x)} :: x in t.surf ==> SurfaceDid(t, r, p, list, x))
    && (forall u {:trigger SubDid(t, r, p, list, u)} :: u in t.sub ==> SubDid(t, r, p, list, u))
  }

  /** The marks that taking `src` at `s` puts on another surface. */
  function Marked(t: Tree, s: Surface, src: SurfaceState, x: Surface): SurfaceRec
    requires Valid(t) && s in t.surf && x in t.surf
  {
    if Unmaps(src) && x in MarkedAbove(t.shape, s) then WithUpdate(t.surf[x], ChildrenSet) else t.surf[x]
  }

  lemma OwnEffect(t: Tree, s: Surface, from: Source, x: Surface)
    requires Valid(t) && s in t.surf && x in t.surf
    requires from == FromCached ==> t.shape.role[s] != null
    ensures
      var r, src := Own(t, s, from), SourceState(t, s, from);
      r.surf[x] == if x != s then Marked(t, s, src, x)
                   else if from == FromCached then Taken(t.surf[s], src)
                   else Taken(t.surf[s], src).(pending := Blank(Patched(t.surf[s].current, src).children))
  {
    SourceIsOk(t, s, from);
    assert s !in MarkedAbove(t.shape, s);
  }

  lemma OwnSubs(t: Tree, s: Surface, from: Source)
    requires Valid(t) && s in t.surf
    requires from == FromCached ==> t.shape.role[s] != null
    ensures
      var r, u := Own(t, s, from), t.shape.role[s];
      r.sub == if from == FromPending then t.sub
               else t.sub[u := t.sub[u].(cached := Blank(r.surf[s].current.children))]
  {
    SourceIsOk(t, s, from);
    OwnEffect(t, s, from, s);
  }

  /** What visiting one child does, surface by surface. */
  ghost predicate VisitedSurface(t: Tree, t1: Tree, c: Subsurface, x: Surface)
    requires Valid(t) && Valid(t1) && t1.shape == t.shape && x in t.surf
    requires c in t.sub && t.shape.surface[c] != null && t.shape.surface[c] in t.surf
  {
    var s := t.shape.surface[c];
    t1.surf[x] == if !IsSync(t.shape, c) then t.surf[x]
                  else if x == s then Taken(t.surf[s], t.sub[c].cached)
                  else Marked(t, s, t.sub[c].cached, x)
  }

  ghost predicate VisitDid(t: Tree, t1: Tree, c: Subsurface) {
    && Valid(t) && Valid(t1) && t1.shape == t.shape
    && c in t.sub && t.shape.surface[c] != null && t.shape.surface[c] in t.surf
    && t.shape.role[t.shape.surface[c]] == c
    && (forall x {:trigger VisitedSurface(t, t1, c, x)} :: x in t.surf ==> VisitedSurface(t, t1, c, x))
    && t1.sub == t.sub[c := if IsSync(t.shape, c)
                            then Positioned(t.sub[c]).(cached := Blank(t1.surf[t.shape.surface[c]].current.children))
                            else Positioned(t.sub[c])]
  }

  lemma VisitEffect(t: Tree, c: Subsurface)
    requires Valid(t) && c in t.sub && t.shape.surface[c] != null
    ensures VisitDid(t, Visit(t, c, false), c)
  {
    assert SubsurfaceOk(t.shape, c) && CacheOk(t.shape, c, t.sub[c]);
    assert Positioned(t.sub[c]).cached == t.sub[c].cached;
    var moved, s := PutSub(t, c, Positioned(t.sub[c])), t.shape.surface[c];
    OwnSubs(moved, s, FromCached);
    forall x | x in t.surf ensures VisitedSurface(t, Visit(t, c, false), c, x) {
      OwnEffect(moved, s, FromCached, x);
    }
  }

  /** `t1`, `t2` and `r` are the trees after the visit of the first child, the walk below it and the
      walk over the other children. */
  ghost predicate Stages(t: Tree, t1: Tree, t2: Tree, r: Tree, p: Surface, list: seq<Subsurface>) {
    && Valid(t) && p in t.surf && ChildrenOk(t.shape, p, list) && list != []
    && VisitDid(t, t1, list[0])
    && WalkDid(t1, t2, t.shape.surface[list[0]], t1.surf[t.shape.surface[list[0]]].current.children)
    && WalkDid(t2, r, p, list[1..])
  }

  /** Restates `Visited` for a walk in terms of its first child and the two walks after it. */
  lemma Steps(t: Tree, t1: Tree, t2: Tree, r: Tree, p: Surface, list: seq<Subsurface>, x: Surface)
    requires Stages(t, t1, t2, r, p, list) && x in t.surf
    ensures
      var s := t.shape.surface[list[0]];
      var children := t1.surf[s].current.children;
      && r.surf[s].current.children == children
      && (Visited(r, p, list, x) <==>
            x == s || Visited(t2, s, children, x) || Visited(r, p, list[1..], x))
      && !(Visited(t2, s, children, x) && Visited(r, p, list[1..], x))
      && (x == s ==> !Visited(t2, s, children, x) && !Visited(r, p, list[1..], x))
  {
    var c := list[0];
    assert SubsurfaceOk(t.shape, c);
    var s := t.shape.surface[c];
    var children := t1.surf[s].current.children;
    var b := Branch(t.shape, p, x);
    assert list == [c] + list[1..];
    NoDupCons(c, list[1..]);
    BranchSplit(t.shape, p, c, x);
    BranchSplit(t.shape, p, c, s);
    assert SurfaceDid(t1, t2, s, children, s) && SurfaceDid(t2, r, p, list[1..], s);
    if b == c && x != s {
      LinkedSplit(r, p, c, x);
      forall q | q in r.surf && Branch(r.shape, s, q) != null
        ensures r.surf[q].current.children == t2.surf[q].current.children
      {
        BranchSplit(t.shape, p, c, q);
        assert SurfaceDid(t2, r, p, list[1..], q);
      }
      LinkedStable(r, t2, s, x);
    }
  }

  /** A patch overwrites the update flags, so it forgets marks that came before. */
  lemma TakenButUpdates(a: SurfaceRec, b: SurfaceRec, src: SurfaceState)
    requires ButUpdates(a, b)
    ensures Taken(a, src) == Taken(b, src)
  {
  }

  /** One surface through three stages of which at most one is its own. */
  lemma Compose(a: SurfaceRec, b: SurfaceRec, c: SurfaceRec, d: SurfaceRec,
                first: bool, second: bool, third: bool, src: SurfaceState)
    requires !(first && second) && !(first && third) && !(second && third)
    requires ButUpdates(if first then Taken(a, src) else a, b)
    requires ButUpdates(if second then Taken(b, src) else b, c)
    requires ButUpdates(if third then Taken(c, src) else c, d)
    ensures ButUpdates(if first || second || third then Taken(a, src) else a, d)
  {
    if second { TakenButUpdates(a, b, src); }
    if third { TakenButUpdates(a, c, src); }
  }

  /** Until a surface is visited its cache stays as it was. */
  lemma CachedStep(t: Tree, t1: Tree, t2: Tree, r: Tree, p: Surface, list: seq<Subsurface>, x: Surface)
    requires Stages(t, t1, t2, r, p, list) && x in t.surf && t.shape.role[x] != null
    ensures
      var s := t.shape.surface[list[0]];
      && (x != s ==> CachedOf(t1, x) == CachedOf(t, x))
      && (x != s && !Applied(t2, s, t1.surf[s].current.children, x) ==> CachedOf(t2, x) == CachedOf(t, x))
  {
    SourceIsOk(t, x, FromCached);
    var s := t.shape.surface[list[0]];
    assert SubDid(t1, t2, s, t1.surf[s].current.children, t.shape.role[x]);
  }

  lemma SurfaceStep(t: Tree, t1: Tree, t2: Tree, r: Tree, p: Surface, list: seq<Subsurface>, x: Surface)
    requires Stages(t, t1, t2, r, p, list) && x in t.surf
    ensures SurfaceDid(t, r, p, list, x)
  {
    hide Patched, Taken;
    var s := t.shape.surface[list[0]];
    var children := t1.surf[s].current.children;
    assert RoleOk(t.shape, x) && VisitedSurface(t, t1, list[0], x);
    assert SurfaceDid(t1, t2, s, children, x) && SurfaceDid(t2, r, p, list[1..], x);
    Steps(t, t1, t2, r, p, list, x);
    if t.shape.role[x] != null { CachedStep(t, t1, t2, r, p, list, x); }
    Compose(t.surf[x], t1.surf[x], t2.surf[x], r.surf[x],
            x == s && SyncedRole(t.shape, x), Applied(t2, s, children, x), Applied(r, p, list[1..], x),
            if t.shape.role[x] != null then CachedOf(t, x) else Blank([]));
  }

  lemma SubStep(t: Tree, t1: Tree, t2: Tree, r: Tree, p: Surface, list: seq<Subsurface>, u: Subsurface)
    requires Stages(t, t1, t2, r, p, list) && u in t.sub
    ensures SubDid(t, r, p, list, u)
  {
    assert SubsurfaceOk(t.shape, u) && SubsurfaceOk(t.shape, list[0]);
    var s := t.shape.surface[list[0]];
    var children := t1.surf[s].current.children;
    assert SubDid(t1, t2, s, children, u) && SubDid(t2, r, p, list[1..], u);
    var x := t.shape.surface[u];
    if x != null {
      Steps(t, t1, t2, r, p, list, x);
      assert SurfaceDid(t2, r, p, list[1..], x);
    }
  }

  /** Reads a whole walk off the tree it ends in. */
  lemma {:induction false} WalkEffect(t: Tree, p: Surface, list: seq<Subsurface>)
    requires Valid(t) && p in t.surf && ChildrenOk(t.shape, p, list)
    ensures WalkDid(t, PlainWalk(t, p, list), p, list)
    decreases t.shape.bound - t.shape.depth[p], |list|
  {
    hide Visit;
    var r := PlainWalk(t, p, list);
    if list == [] {
      forall u | u in t.sub ensures SubDid(t, r, p, list, u) { assert SubsurfaceOk(t.shape, u); }
    } else {
      var c := list[0];
      assert SubsurfaceOk(t.shape, c);
      var s := t.shape.surface[c];
      var t1 := Visit(t, c, false);
      VisitEffect(t, c);
      SourceIsOk(t1, s, FromPending);
      var t2 := PlainWalk(t1, s, t1.surf[s].current.children);
      WalkEffect(t1, s, t1.surf[s].current.children);
      WalkEffect(t2, p, list[1..]);
      AllSteps(t, t1, t2, r, p, list);
    }
  }

  lemma AllSteps(t: Tree, t1: Tree, t2: Tree, r: Tree, p: Surface, list: seq<Subsurface>)
    requires Stages(t, t1, t2, r, p, list)
    ensures WalkDid(t, r, p, list)
  {
    forall x | x in t.surf ensures SurfaceDid(t, r, p, list, x) { SurfaceStep(t, t1, t2, r, p, list, x); }
    forall u | u in t.sub ensures SubDid(t, r, p, list, u) { SubStep(t, t1, t2, r, p, list, u); }
  }

  // ---------------------------------------------------------------- marks

  /** The walk makes `y` take a null buffer. */
  predicate Unmapper(t: Tree, r: Tree, p: Surface, list: seq<Subsurface>, y: Surface)
    requires Valid(t) && Valid(r) && t.shape == r.shape && y in t.surf
  {
    Applied(r, p, list, y) && Unmaps(CachedOf(t, y))
  }

  ghost predicate MarkedBy(t: Tree, r: Tree, p: Surface, list: seq<Subsurface>, x: Surface)
    requires Valid(t) && Valid(r) && t.shape == r.shape
  {
    exists y :: y in t.surf && Unmapper(t, r, p, list, y) && x in MarkedAbove(t.shape, y)
  }

  function MarkIf(r: SurfaceRec, marked: bool): SurfaceRec {
    if marked then WithUpdate(r, ChildrenSet) else r
  }

  /** The exact record of `x` after the walk. */
  ghost predicate MarkDid(t: Tree, r: Tree, p: Surface, list: seq<Subsurface>, x: Surface)
    requires Valid(t) && Valid(r) && t.shape == r.shape && x in t.surf
  {
    r.surf[x] == MarkIf(Base(t, r, p, list, x), MarkedBy(t, r, p, list, x))
  }

  lemma ComposeMarks(a: SurfaceRec, b: SurfaceRec, c: SurfaceRec, d: SurfaceRec,
                     first: bool, second: bool, third: bool,
                     m1: bool, m2: bool, m3: bool, src: SurfaceState)
    requires !(first && second) && !(first && third) && !(second && third)
    requires (second ==> !m1) && (third ==> !m1 && !m2)
    requires b == MarkIf(if first then Taken(a, src) else a, m1)
    requires c == MarkIf(if second then Taken(b, src) else b, m2)
    requires d == MarkIf(if third then Taken(c, src) else c, m3)
    ensures d == MarkIf(if first || second || third then Taken(a, src) else a, m1 || m2 || m3)
  {
  }

  /** Who unmaps in the whole walk unmaps in exactly one of its stages. */
  lemma UnmapperSteps(t: Tree, t1: Tree, t2: Tree, r: Tree, p: Surface, list: seq<Subsurface>, y: Surface)
    requires Stages(t, t1, t2, r, p, list) && y in t.surf
    ensures
      var s := t.shape.surface[list[0]];
      Unmapper(t, r, p, list, y) <==>
      || (y == s && IsSync(t.shape, list[0]) && Unmaps(t.sub[list[0]].cached))
      || Unmapper(t1, t2, s, t1.surf[s].current.children, y)
      || Unmapper(t2, r, p, list[1..], y)
  {
    Steps(t, t1, t2, r, p, list, y);
    assert RoleOk(t.shape, y);
    if t.shape.role[y] != null { CachedStep(t, t1, t2, r, p, list, y); }
  }

  /** The state `x` takes in whichever stage is its own; it is the one it had cached at the start. */
  function OwnSource(t: Tree, x: Surface): SurfaceState
    requires Valid(t) && x in t.surf
  {
    if t.shape.role[x] != null then CachedOf(t, x) else Blank([])
  }

  lemma BaseSteps(t: Tree, t1: Tree, t2: Tree, r: Tree, p: Surface, list: seq<Subsurface>, x: Surface)
    requires Stages(t, t1, t2, r, p, list) && x in t.surf
    ensures
      var s, src := t.shape.surface[list[0]], OwnSource(t, x);
      var children := t1.surf[s].current.children;
      var second, third := Applied(t2, s, children, x), Applied(r, p, list[1..], x);
      && Base(t1, t2, s, children, x) == (if second then Taken(t1.surf[x], src) else t1.surf[x])
      && Base(t2, r, p, list[1..], x) == (if third then Taken(t2.surf[x], src) else t2.surf[x])
  {
    Steps(t, t1, t2, r, p, list, x);
    assert RoleOk(t.shape, x);
    if t.shape.role[x] != null { CachedStep(t, t1, t2, r, p, list, x); }
  }

  lemma BaseWhole(t: Tree, t1: Tree, t2: Tree, r: Tree, p: Surface, list: seq<Subsurface>, x: Surface)
    requires Stages(t, t1, t2, r, p, list) && x in t.surf
    ensures
      var s, src := t.shape.surface[list[0]], OwnSource(t, x);
      var children := t1.surf[s].current.children;
      var first := x == s && IsSync(t.shape, list[0]);
      var second, third := Applied(t2, s, children, x), Applied(r, p, list[1..], x);
      && !(first && second) && !(first && third) && !(second && third)
      && Base(t, r, p, list, x) == (if first || second || third then Taken(t.surf[x], src) else t.surf[x])
      && t1.surf[x] == MarkIf(if first then Taken(t.surf[x], src) else t.surf[x],
                              IsSync(t.shape, list[0]) && Unmaps(t.sub[list[0]].cached)
                              && x in MarkedAbove(t.shape, s))
  {
    Steps(t, t1, t2, r, p, list, x);
    assert RoleOk(t.shape, x) && VisitedSurface(t, t1, list[0], x);
  }

  lemma MarkStep(t: Tree, t1: Tree, t2: Tree, r: Tree, p: Surface, list: seq<Subsurface>, x: Surface)
    requires Stages(t, t1, t2, r, p, list) && x in t.surf
    requires
      var s := t.shape.surface[list[0]];
      MarkDid(t1, t2, s, t1.surf[s].current.children, x) && MarkDid(t2, r, p, list[1..], x)
    ensures MarkDid(t, r, p, list, x)
  {
    hide Patched, Taken, Visited;
    var c, s := list[0], t.shape.surface[list[0]];
    var children := t1.surf[s].current.children;
    BaseSteps(t, t1, t2, r, p, list, x);
    BaseWhole(t, t1, t2, r, p, list, x);
    MarksSplit(t, t1, t2, r, p, list, x);
    MarksAreElsewhere(t, t1, t2, r, p, list, x);
    ComposeMarks(t.surf[x], t1.surf[x], t2.surf[x], r.surf[x],
                 x == s && IsSync(t.shape, c), Applied(t2, s, children, x), Applied(r, p, list[1..], x),
                 IsSync(t.shape, c) && Unmaps(t.sub[c].cached) && x in MarkedAbove(t.shape, s),
                 MarkedBy(t1, t2, s, children, x), MarkedBy(t2, r, p, list[1..], x), OwnSource(t, x));
  }

  lemma MarksSplit(t: Tree, t1: Tree, t2: Tree, r: Tree, p: Surface, list: seq<Subsurface>, x: Surface)
    requires Stages(t, t1, t2, r, p, list) && x in t.surf
    ensures
      var s := t.shape.surface[list[0]];
      MarkedBy(t, r, p, list, x) <==>
      || (IsSync(t.shape, list[0]) && Unmaps(t.sub[list[0]].cached) && x in MarkedAbove(t.shape, s))
      || MarkedBy(t1, t2, s, t1.surf[s].current.children, x)
      || MarkedBy(t2, r, p, list[1..], x)
  {
    forall y | y in t.surf
      ensures
        var s := t.shape.surface[list[0]];
        Unmapper(t, r, p, list, y) <==>
        || (y == s && IsSync(t.shape, list[0]) && Unmaps(t.sub[list[0]].cached))
        || Unmapper(t1, t2, s, t1.surf[s].current.children, y)
        || Unmapper(t2, r, p, list[1..], y)
    {
      UnmapperSteps(t, t1, t2, r, p, list, y);
    }
  }

  /** A surface is marked only by surfaces below it, so never before its own patch. */
  lemma MarksAreElsewhere(t: Tree, t1: Tree, t2: Tree, r: Tree, p: Surface, list: seq<Subsurface>, x: Surface)
    requires Stages(t, t1, t2, r, p, list) && x in t.surf
    ensures
      var s := t.shape.surface[list[0]];
      var children := t1.surf[s].current.children;
      && (Applied(t2, s, children, x) ==> x !in MarkedAbove(t.shape, s))
      && (Applied(r, p, list[1..], x) ==>
            x !in MarkedAbove(t.shape, s) && !MarkedBy(t1, t2, s, children, x))
  {
    var c, s := list[0], t.shape.surface[list[0]];
    var children := t1.surf[s].current.children;
    assert SubsurfaceOk(t.shape, c);
    if Applied(r, p, list[1..], x) {
      assert list == [c] + list[1..];
      NoDupCons(c, list[1..]);
      BranchSplit(t.shape, p, c, s);
      if x in MarkedAbove(t.shape, s) {
        MarkedIsAbove(t.shape, p, x, s);
        assert false;
      }
      forall y | y in t1.surf && Unmapper(t1, t2, s, children, y) && x in MarkedAbove(t.shape, y)
        ensures false
      {
        BranchSplit(t.shape, p, c, y);
        MarkedIsAbove(t.shape, p, x, y);
      }
    }
  }

  /** The walk raises the children flag exactly above the surfaces it unmaps. */
  lemma {:induction false} WalkMarks(t: Tree, p: Surface, list: seq<Subsurface>, x: Surface)
    requires Valid(t) && p in t.surf && ChildrenOk(t.shape, p, list) && x in t.surf
    ensures MarkDid(t, PlainWalk(t, p, list), p, list, x)
    decreases t.shape.bound - t.shape.depth[p], |list|
  {
    hide Visit;
    if list != [] {
      var r := PlainWalk(t, p, list);
      var c := list[0];
      assert SubsurfaceOk(t.shape, c);
      var s := t.shape.surface[c];
      var t1 := Visit(t, c, false);
      VisitEffect(t, c);
      SourceIsOk(t1, s, FromPending);
      var t2 := PlainWalk(t1, s, t1.surf[s].current.children);
      WalkEffect(t1, s, t1.surf[s].current.children);
      WalkEffect(t2, p, list[1..]);
      WalkMarks(t1, s, t1.surf[s].current.children, x);
      WalkMarks(t2, p, list[1..], x);
      MarkStep(t, t1, t2, r, p, list, x);
    }
  }
}
