/** The commit of a surface tree, read off the tree it leaves behind. */
module AtomicCommit {
  import opened SurfaceTree
  import opened TreeWalk

  /** From `x` up to `s`, every subsurface is in its parent's current children list. */
  predicate Reached(r: Tree, s: Surface, x: Surface)
    requires Valid(r) && x in r.surf
    decreases r.shape.depth[x]
  {
    if x == s then true
    else
      assert RoleOk(r.shape, x);
      var u := r.shape.role[x];
      if u == null || r.shape.parent[u] == null then false
      else
        assert SubsurfaceOk(r.shape, u);
        u in r.surf[r.shape.parent[u]].current.children && Reached(r, s, r.shape.parent[u])
  }

  /** An update that starts at `s` and ends in `r` makes `x` take a source state: `s` itself does, and
      below it every reached surface that is effectively synchronized. */
  predicate Takes(r: Tree, s: Surface, x: Surface)
    requires Valid(r) && x in r.surf
  {
    x == s || (Reached(r, s, x) && SyncedRole(r.shape, x))
  }

  function TakenState(t: Tree, s: Surface, from: Source, x: Surface): SurfaceState
    requires Valid(t) && s in t.surf && x in t.surf
    requires from == FromCached ==> t.shape.role[s] != null
    requires x != s ==> t.shape.role[x] != null
  {
    if x == s then SourceState(t, s, from) else CachedOf(t, x)
  }

  predicate UnmappedBy(t: Tree, r: Tree, s: Surface, from: Source, y: Surface)
    requires Valid(t) && Valid(r) && t.shape == r.shape && s in t.surf && y in t.surf
    requires from == FromCached ==> t.shape.role[s] != null
  {
    Takes(r, s, y) && Unmaps(TakenState(t, s, from, y))
  }

  /** `x` lies on the stretch above some surface that this update unmaps. */
  ghost predicate AboveUnmap(t: Tree, r: Tree, s: Surface, from: Source, x: Surface)
    requires Valid(t) && Valid(r) && t.shape == r.shape && s in t.surf
    requires from == FromCached ==> t.shape.role[s] != null
  {
    exists y :: y in t.surf && UnmappedBy(t, r, s, from, y) && x in MarkedAbove(t.shape, y)
  }

  /** The record of `x` after the update. */
  ghost function Expected(t: Tree, r: Tree, s: Surface, from: Source, x: Surface): SurfaceRec
    requires Valid(t) && Valid(r) && t.shape == r.shape && s in t.surf && x in t.surf
    requires from == FromCached ==> t.shape.role[s] != null
  {
    var taken := if Takes(r, s, x) then Taken(t.surf[x], TakenState(t, s, from, x)) else t.surf[x];
    var own := if x == s && from == FromPending then taken.(pending := Blank(taken.current.children)) else taken;
    MarkIf(own, AboveUnmap(t, r, s, from, x))
  }

  /** The record of `u` after the update. */
  ghost function ExpectedSub(t: Tree, r: Tree, s: Surface, from: Source, u: Subsurface): SubRec
    requires Valid(t) && Valid(r) && t.shape == r.shape && s in t.surf && u in t.sub
  {
    assert SubsurfaceOk(t.shape, u);
    var x := t.shape.surface[u];
    if x == null then t.sub[u]
    else if x == s then
      if from == FromCached then t.sub[u].(cached := Blank(r.surf[s].current.children)) else t.sub[u]
    else
      var placed := if Reached(r, s, x) then Positioned(t.sub[u]) else t.sub[u];
      if Takes(r, s, x) then placed.(cached := Blank(r.surf[x].current.children)) else placed
  }

  ghost predicate Updated(t: Tree, r: Tree, s: Surface, from: Source) {
    && Valid(t) && Valid(r) && t.shape == r.shape && s in t.surf
    && (from == FromCached ==> t.shape.role[s] != null)
    && (forall x {:trigger Expected(t, r, s, from, x)} ::
          x in t.surf ==> r.surf[x] == Expected(t, r, s, from, x))
    && (forall u {:trigger ExpectedSub(t, r, s, from, u)} ::
          u in t.sub ==> r.sub[u] == ExpectedSub(t, r, s, from, u))
  }

  lemma {:induction false} ReachedIsLinked(r: Tree, s: Surface, x: Surface)
    requires Valid(r) && x in r.surf && s in r.surf && x != s
    ensures Reached(r, s, x) <==> Visited(r, s, r.surf[s].current.children, x)
    decreases if x in r.shape.depth then r.shape.depth[x] else 0
  {
    assert RoleOk(r.shape, x);
    var u := r.shape.role[x];
    if u != null && r.shape.parent[u] != null {
      assert SubsurfaceOk(r.shape, u);
      if r.shape.parent[u] != s { ReachedIsLinked(r, s, r.shape.parent[u]); }
    }
  }

  /** What `s` does on its own, before the walk. */
  ghost predicate OwnDid(t: Tree, own: Tree, s: Surface, from: Source) {
    && Valid(t) && Valid(own) && t.shape == own.shape && s in t.surf
    && (from == FromCached ==> t.shape.role[s] != null)
    && (forall x {:trigger OwnRecord(t, s, from, x)} ::
          x in t.surf ==> own.surf[x] == OwnRecord(t, s, from, x))
    && own.sub == OwnCache(t, s, from, own.surf[s].current.children)
  }

  /** The caches once `s` has used up its source. */
  function OwnCache(t: Tree, s: Surface, from: Source, children: seq<Subsurface>): map<Subsurface, SubRec>
    requires Valid(t) && s in t.surf && (from == FromCached ==> t.shape.role[s] != null)
  {
    assert RoleOk(t.shape, s);
    var u := t.shape.role[s];
    if from == FromCached then t.sub[u := t.sub[u].(cached := Blank(children))] else t.sub
  }

  function OwnRecord(t: Tree, s: Surface, from: Source, x: Surface): SurfaceRec
    requires Valid(t) && s in t.surf && x in t.surf
    requires from == FromCached ==> t.shape.role[s] != null
  {
    var src := SourceState(t, s, from);
    if x != s then Marked(t, s, src, x)
    else if from == FromCached then Taken(t.surf[s], src)
    else Taken(t.surf[s], src).(pending := Blank(Patched(t.surf[s].current, src).children))
  }

  lemma OwnDoes(t: Tree, s: Surface, from: Source)
    requires Valid(t) && s in t.surf
    requires from == FromCached ==> t.shape.role[s] != null
    ensures OwnDid(t, Own(t, s, from), s, from)
  {
    forall x | x in t.surf ensures Own(t, s, from).surf[x] == OwnRecord(t, s, from, x) {
      OwnEffect(t, s, from, x);
    }
    OwnSubs(t, s, from);
  }

  ghost predicate WalkExact(own: Tree, r: Tree, s: Surface) {
    && Valid(own) && s in own.surf
    && WalkDid(own, r, s, own.surf[s].current.children)
    && forall x {:trigger MarkDid(own, r, s, own.surf[s].current.children, x)} ::
         x in own.surf ==> MarkDid(own, r, s, own.surf[s].current.children, x)
  }

  lemma WalkIsExact(own: Tree, s: Surface)
    requires Valid(own) && s in own.surf && ChildrenOk(own.shape, s, own.surf[s].current.children)
    ensures WalkExact(own, PlainWalk(own, s, own.surf[s].current.children), s)
  {
    WalkEffect(own, s, own.surf[s].current.children);
    forall x | x in own.surf
      ensures MarkDid(own, PlainWalk(own, s, own.surf[s].current.children), s, own.surf[s].current.children, x)
    {
      WalkMarks(own, s, own.surf[s].current.children, x);
    }
  }

  /** Below `s`, an update takes what the walk applies, from the caches as they were before it. */
  lemma TakesIsApplied(t: Tree, own: Tree, r: Tree, s: Surface, from: Source, x: Surface)
    requires OwnDid(t, own, s, from) && WalkExact(own, r, s) && x in t.surf
    ensures
      var list := own.surf[s].current.children;
      && r.surf[s].current.children == list
      && !Visited(r, s, list, s)
      && (x != s ==>
            && (Reached(r, s, x) <==> Visited(r, s, list, x))
            && (Takes(r, s, x) <==> Applied(r, s, list, x))
            && (t.shape.role[x] != null ==> CachedOf(own, x) == CachedOf(t, x)))
  {
    assert SurfaceDid(own, r, s, own.surf[s].current.children, s);
    assert Branch(t.shape, s, s) == null;
    if x != s {
      ReachedIsLinked(r, s, x);
      assert RoleOk(t.shape, x) && RoleOk(t.shape, s);
      if t.shape.role[x] != null { SourceIsOk(t, x, FromCached); }
      if t.shape.role[s] != null { SourceIsOk(t, s, FromCached); }
    }
  }

  lemma MarksAgree(t: Tree, own: Tree, r: Tree, s: Surface, from: Source, x: Surface)
    requires OwnDid(t, own, s, from) && WalkExact(own, r, s) && x in t.surf
    ensures AboveUnmap(t, r, s, from, x) <==>
      || (Unmaps(SourceState(t, s, from)) && x in MarkedAbove(t.shape, s))
      || MarkedBy(own, r, s, own.surf[s].current.children, x)
  {
    var list := own.surf[s].current.children;
    forall y | y in t.surf
      ensures UnmappedBy(t, r, s, from, y) <==>
        (y == s && Unmaps(SourceState(t, s, from))) || Unmapper(own, r, s, list, y)
    {
      TakesIsApplied(t, own, r, s, from, y);
    }
  }

  lemma RecordsAgree(t: Tree, own: Tree, r: Tree, s: Surface, from: Source, x: Surface)
    requires OwnDid(t, own, s, from) && WalkExact(own, r, s) && x in t.surf
    ensures r.surf[x] == Expected(t, r, s, from, x)
  {
    hide Patched;
    var list, src := own.surf[s].current.children, SourceState(t, s, from);
    assert MarkDid(own, r, s, list, x) && own.surf[x] == OwnRecord(t, s, from, x);
    TakesIsApplied(t, own, r, s, from, x);
    MarksAgree(t, own, r, s, from, x);
    if x != s && Takes(r, s, x) { assert x !in MarkedAbove(t.shape, s); }
    if x == s { assert s !in MarkedAbove(t.shape, s); }
  }

  lemma SubsAgree(t: Tree, own: Tree, r: Tree, s: Surface, from: Source, u: Subsurface)
    requires OwnDid(t, own, s, from) && WalkExact(own, r, s) && u in t.sub
    ensures r.sub[u] == ExpectedSub(t, r, s, from, u)
  {
    assert SubsurfaceOk(t.shape, u) && RoleOk(t.shape, s);
    assert SubDid(own, r, s, own.surf[s].current.children, u);
    var x := t.shape.surface[u];
    if x != null { TakesIsApplied(t, own, r, s, from, x); }
  }

  /** The update without the force argument. */
  function PlainUpdate(t: Tree, s: Surface, from: Source): (r: Tree)
    requires Valid(t) && s in t.surf
    requires from == FromCached ==> t.shape.role[s] != null
    ensures r.shape == t.shape && Valid(r)
  {
    var own := Own(t, s, from);
    SourceIsOk(own, s, FromPending);
    PlainWalk(own, s, own.surf[s].current.children)
  }

  lemma UpdateIsPlain(t: Tree, s: Surface, from: Source, force: bool)
    requires Valid(t) && s in t.surf
    requires from == FromCached ==> t.shape.role[s] != null
    requires force ==> SyncedRole(t.shape, s)
    ensures Update(t, s, from, force) == PlainUpdate(t, s, from)
  {
    var own := Own(t, s, from);
    SourceIsOk(own, s, FromPending);
    ForceIsRedundant(own, s, own.surf[s].current.children, force);
  }

  /** The whole update, for every surface and subsurface of the tree. */
  lemma UpdateIsAtomic(t: Tree, s: Surface, from: Source, force: bool)
    requires Valid(t) && s in t.surf
    requires from == FromCached ==> t.shape.role[s] != null
    requires force ==> SyncedRole(t.shape, s)
    ensures Updated(t, Update(t, s, from, force), s, from)
  {
    UpdateIsPlain(t, s, from, force);
    var own, r := Own(t, s, from), PlainUpdate(t, s, from);
    SourceIsOk(own, s, FromPending);
    OwnDoes(t, s, from);
    WalkIsExact(own, s);
    AllAgree(t, own, r, s, from);
  }

  lemma AllAgree(t: Tree, own: Tree, r: Tree, s: Surface, from: Source)
    requires OwnDid(t, own, s, from) && WalkExact(own, r, s)
    ensures Updated(t, r, s, from)
  {
    forall x | x in t.surf ensures r.surf[x] == Expected(t, r, s, from, x) {
      RecordsAgree(t, own, r, s, from, x);
    }
    forall u | u in t.sub ensures r.sub[u] == ExpectedSub(t, r, s, from, u) {
      SubsAgree(t, own, r, s, from, u);
    }
  }

  // ---------------------------------------------------------------- the same, read off the tree before

  /** The children list that an update leaves a surface which it reaches. */
  function ListAfter(t: Tree, s: Surface, from: Source, x: Surface): seq<Subsurface>
    requires Valid(t) && s in t.surf && x in t.surf
    requires from == FromCached ==> t.shape.role[s] != null
  {
    if x == s then Relisted(t.surf[x].current, SourceState(t, s, from))
    else if SyncedRole(t.shape, x) then Relisted(t.surf[x].current, CachedOf(t, x))
    else t.surf[x].current.children
  }

  function Relisted(cur: SurfaceState, src: SurfaceState): seq<Subsurface> {
    if ChildrenSet in src.updates then src.children else cur.children
  }

  /** From `x` up to `s`, every subsurface will be in the list that its parent is left with. */
  predicate WillReach(t: Tree, s: Surface, from: Source, x: Surface)
    requires Valid(t) && s in t.surf && x in t.surf
    requires from == FromCached ==> t.shape.role[s] != null
    decreases t.shape.depth[x]
  {
    if x == s then true
    else
      assert RoleOk(t.shape, x);
      var u := t.shape.role[x];
      if u == null || t.shape.parent[u] == null then false
      else
        assert SubsurfaceOk(t.shape, u);
        u in ListAfter(t, s, from, t.shape.parent[u]) && WillReach(t, s, from, t.shape.parent[u])
  }

  predicate WillTake(t: Tree, s: Surface, from: Source, x: Surface)
    requires Valid(t) && s in t.surf && x in t.surf
    requires from == FromCached ==> t.shape.role[s] != null
  {
    x == s || (WillReach(t, s, from, x) && SyncedRole(t.shape, x))
  }

  lemma {:induction false} ReachIsKnownBefore(t: Tree, r: Tree, s: Surface, from: Source, x: Surface)
    requires Updated(t, r, s, from) && x in t.surf
    ensures Reached(r, s, x) <==> WillReach(t, s, from, x)
    ensures Takes(r, s, x) <==> WillTake(t, s, from, x)
    decreases if x in t.shape.depth then t.shape.depth[x] else 0
  {
    assert RoleOk(t.shape, x);
    var u := t.shape.role[x];
    if x != s && u != null && t.shape.parent[u] != null {
      assert SubsurfaceOk(t.shape, u);
      var p := t.shape.parent[u];
      ReachIsKnownBefore(t, r, s, from, p);
      if Reached(r, s, p) { ListIsKnownBefore(t, r, s, from, p); }
    }
  }

  lemma ListIsKnownBefore(t: Tree, r: Tree, s: Surface, from: Source, x: Surface)
    requires Updated(t, r, s, from) && x in t.surf && Reached(r, s, x)
    ensures r.surf[x].current.children == ListAfter(t, s, from, x)
  {
    assert r.surf[x] == Expected(t, r, s, from, x);
    assert RoleOk(t.shape, x);
  }

  /** There is only one such tree. */
  lemma UpdatedIsUnique(t: Tree, a: Tree, b: Tree, s: Surface, from: Source)
    requires Updated(t, a, s, from) && Updated(t, b, s, from)
    ensures a == b
  {
    forall x | x in t.surf ensures a.surf[x] == b.surf[x] { UniqueRecord(t, a, b, s, from, x); }
    assert a.surf == b.surf;
    forall u | u in t.sub ensures a.sub[u] == b.sub[u] {
      assert a.sub[u] == ExpectedSub(t, a, s, from, u) && b.sub[u] == ExpectedSub(t, b, s, from, u);
      assert SubsurfaceOk(t.shape, u);
      var x := t.shape.surface[u];
      if x != null {
        ReachIsKnownBefore(t, a, s, from, x);
        ReachIsKnownBefore(t, b, s, from, x);
      }
    }
    assert a.sub == b.sub;
  }

  lemma UniqueRecord(t: Tree, a: Tree, b: Tree, s: Surface, from: Source, x: Surface)
    requires Updated(t, a, s, from) && Updated(t, b, s, from) && x in t.surf
    ensures a.surf[x] == b.surf[x]
  {
    hide Patched;
    forall y | y in t.surf ensures Takes(a, s, y) <==> Takes(b, s, y) {
      ReachIsKnownBefore(t, a, s, from, y);
      ReachIsKnownBefore(t, b, s, from, y);
    }
    assert AboveUnmap(t, a, s, from, x) <==> AboveUnmap(t, b, s, from, x);
    assert a.surf[x] == Expected(t, a, s, from, x) && b.surf[x] == Expected(t, b, s, from, x);
  }

  // ---------------------------------------------------------------- what a commit means

  /** A commit on a surface that is not effectively synchronized is one update of the whole tree. */
  lemma CommitIsAtomic(t: Tree, s: Surface)
    requires Valid(t) && s in t.surf && !SyncedRole(t.shape, s)
    ensures Updated(t, DoCommit(t, s), s, FromPending)
  {
    UpdateIsAtomic(t, s, FromPending, false);
  }

  /** Every effectively synchronized surface that the new current children lead to has its old cached
      state patched into its old current state, and its cache emptied. */
  lemma SynchronizedTakeTheirCache(t: Tree, s: Surface, x: Surface)
    requires Valid(t) && s in t.surf && !SyncedRole(t.shape, s) && x in t.surf && x != s
    requires Reached(DoCommit(t, s), s, x) && SyncedRole(t.shape, x)
    ensures
      var r, u := DoCommit(t, s), t.shape.role[x];
      && u in t.sub
      && r.surf[x].current == Patched(t.surf[x].current, t.sub[u].cached).(updates := r.surf[x].current.updates)
      && Patched(t.surf[x].current, t.sub[u].cached).updates <= r.surf[x].current.updates
      && r.surf[x].current.updates <= Patched(t.surf[x].current, t.sub[u].cached).updates + {ChildrenSet}
      && r.sub[u].cached == Blank(r.surf[x].current.children)
      && r.surf[x].pending == t.surf[x].pending
  {
    hide DoCommit, Patched;
    CommitIsAtomic(t, s);
    SourceIsOk(t, x, FromCached);
    var r := DoCommit(t, s);
    assert r.surf[x] == Expected(t, r, s, FromPending, x);
    assert r.sub[t.shape.role[x]] == ExpectedSub(t, r, s, FromPending, t.shape.role[x]);
  }

  /** Every other surface keeps its states, all but the update flags, and its cache. */
  lemma OthersKeepTheirContent(t: Tree, s: Surface, x: Surface)
    requires Valid(t) && s in t.surf && !SyncedRole(t.shape, s) && x in t.surf && x != s
    requires !(Reached(DoCommit(t, s), s, x) && SyncedRole(t.shape, x))
    ensures
      var r, u := DoCommit(t, s), t.shape.role[x];
      && ButUpdates(t.surf[x], r.surf[x])
      && t.surf[x].current.updates <= r.surf[x].current.updates <= t.surf[x].current.updates + {ChildrenSet}
      && (u != null ==> u in t.sub && r.sub[u].cached == t.sub[u].cached)
  {
    hide DoCommit, Patched;
    CommitIsAtomic(t, s);
    var r := DoCommit(t, s);
    assert r.surf[x] == Expected(t, r, s, FromPending, x);
    assert RoleOk(t.shape, x);
    if t.shape.role[x] != null {
      assert r.sub[t.shape.role[x]] == ExpectedSub(t, r, s, FromPending, t.shape.role[x]);
    }
  }

  /** The current state of a surface that took a state, up to the children flag. */
  lemma TakenCurrent(t: Tree, s: Surface, x: Surface)
    requires Valid(t) && s in t.surf && !SyncedRole(t.shape, s) && x in t.surf
    requires Takes(DoCommit(t, s), s, x) && (x != s ==> t.shape.role[x] != null)
    ensures
      var patched := Patched(t.surf[x].current, TakenState(t, s, FromPending, x));
      var after := DoCommit(t, s).surf[x].current;
      && after == patched.(updates := after.updates)
      && patched.updates <= after.updates <= patched.updates + {ChildrenSet}
  {
    hide DoCommit, Patched;
    CommitIsAtomic(t, s);
    assert DoCommit(t, s).surf[x] == Expected(t, DoCommit(t, s), s, FromPending, x);
  }

  // ---------------------------------------------------------------- effective synchronization

  /** A subsurface is effectively synchronized exactly when it or some surface above it, all the way up
      through the parents, plays its role in synchronized mode. */
  lemma {:induction false} SyncIsSomewhereAbove(sh: Shape, u: Subsurface)
    requires ValidShape(sh) && u in sh.surface && sh.surface[u] != null
    ensures sh.surface[u] in sh.role
    ensures IsSync(sh, u) <==> exists z :: z in sh.role && SynchronizedAt(sh, z, sh.surface[u])
    decreases Links(sh, u)
  {
    assert SubsurfaceOk(sh, u);
    var s, p := sh.surface[u], sh.parent[u];
    assert Under(sh, s, s);
    if sh.mode[u] == Synchronized {
      assert SynchronizedAt(sh, s, s);
    } else if p != null {
      assert RoleOk(sh, p);
      forall z | z in sh.role
        ensures SynchronizedAt(sh, z, s) <==> SynchronizedAt(sh, z, p)
      {
        assert RoleOk(sh, z);
        if z == s { NotUnderChild(sh, s, p); }
      }
      var v := sh.role[p];
      if v != null {
        assert SubsurfaceOk(sh, v);
        SyncIsSomewhereAbove(sh, v);
      } else {
        assert forall z :: z in sh.role && Under(sh, z, p) ==> z == p;
      }
    }
  }

  /** The main surface is the one above that plays no role itself; there is none exactly when some
      surface on the way up has lost its parent. */
  lemma {:induction false} MainSurfaceIsTheRoot(sh: Shape, u: Subsurface, r: Surface)
    requires ValidShape(sh) && u in sh.surface && sh.surface[u] != null && r in sh.role
    ensures sh.surface[u] in sh.role
    ensures MainSurface(sh, u) != null ==> MainSurface(sh, u) in sh.role
    ensures MainSurface(sh, u) == r <==> sh.role[r] == null && Under(sh, r, sh.surface[u])
    decreases Links(sh, u)
  {
    assert SubsurfaceOk(sh, u);
    var s, p := sh.surface[u], sh.parent[u];
    assert RoleOk(sh, s) && RoleOk(sh, r);
    if p != null {
      assert RoleOk(sh, p);
      var v := sh.role[p];
      if v != null {
        assert SubsurfaceOk(sh, v);
        MainSurfaceIsTheRoot(sh, v, r);
      }
    }
  }

  /** `z` is `x` or above it, and has a role in synchronized mode. */
  predicate SynchronizedAt(sh: Shape, z: Surface, x: Surface)
    requires ValidShape(sh) && z in sh.role && x in sh.role
  {
    assert RoleOk(sh, z);
    Under(sh, z, x) && sh.role[z] != null && sh.mode[sh.role[z]] == Synchronized
  }

  lemma {:induction false} NotUnderChild(sh: Shape, s: Surface, p: Surface)
    requires ValidShape(sh) && s in sh.role && p in sh.role && sh.depth[p] < sh.depth[s]
    ensures !Under(sh, s, p)
    decreases sh.depth[p]
  {
    assert RoleOk(sh, p);
    var v := sh.role[p];
    if v != null && sh.parent[v] != null {
      assert SubsurfaceOk(sh, v);
      NotUnderChild(sh, s, sh.parent[v]);
    }
  }

  // ---------------------------------------------------------------- unmapping

  /** The surfaces an unmap of `y` marks are those strictly above `y` that it reaches through
      effectively synchronized roles only: up to and including the first surface without one. */
  lemma {:induction false} MarkedAboveIsTheStretch(sh: Shape, x: Surface, y: Surface)
    requires ValidShape(sh) && x in sh.role && y in sh.role
    ensures x in MarkedAbove(sh, y) <==>
      && x != y && Under(sh, x, y)
      && forall z :: z in sh.role && z != x && Under(sh, x, z) && Under(sh, z, y) ==> SyncedRole(sh, z)
    decreases sh.depth[y]
  {
    assert RoleOk(sh, y);
    var u := sh.role[y];
    assert Under(sh, y, y);
    if u != null && sh.parent[u] != null {
      assert SubsurfaceOk(sh, u);
      var q := sh.parent[u];
      MarkedAboveIsTheStretch(sh, x, q);
      NotUnderChild(sh, y, q);
      if x == q {
        forall z | z in sh.role && z != x && Under(sh, x, z) && Under(sh, z, y) ensures z == y {
          if z != y { UnderIsDeeper(sh, x, z); UnderIsDeeper(sh, z, q); }
        }
      }
    }
  }

  lemma {:induction false} UnderIsDeeper(sh: Shape, z: Surface, x: Surface)
    requires ValidShape(sh) && z in sh.role && x in sh.role && Under(sh, z, x)
    ensures x == z || sh.depth[z] < sh.depth[x]
    decreases sh.depth[x]
  {
    if x != z {
      assert RoleOk(sh, x) && SubsurfaceOk(sh, sh.role[x]);
      UnderIsDeeper(sh, z, sh.parent[sh.role[x]]);
    }
  }

  /** When the commit ends, the children flag is up on a surface that takes no children of its own just
      when some surface below it, on a stretch of synchronized roles, was given a null buffer. */
  lemma UnmapShowsAbove(t: Tree, s: Surface, x: Surface)
    requires Valid(t) && s in t.surf && !SyncedRole(t.shape, s) && x in t.surf
    ensures
      var r := DoCommit(t, s);
      var before := if Takes(r, s, x) then Patched(t.surf[x].current, TakenState(t, s, FromPending, x)).updates
                    else t.surf[x].current.updates;
      ChildrenSet in r.surf[x].current.updates <==>
        ChildrenSet in before || AboveUnmap(t, r, s, FromPending, x)
  {
    hide DoCommit, Patched;
    CommitIsAtomic(t, s);
    var r := DoCommit(t, s);
    assert r.surf[x] == Expected(t, r, s, FromPending, x);
  }

  // ---------------------------------------------------------------- changing the mode

  /** Turning desynchronized flushes the cache at once, unless an ancestor still synchronizes. */
  predicate Flushes(t: Tree, u: Subsurface, m: Mode)
    requires Valid(t) && u in t.sub
  {
    assert SubsurfaceOk(t.shape, u);
    && t.shape.mode[u] != m && m == Desynchronized && t.shape.parent[u] != null
    && !SyncedRole(PutMode(t, u, m).shape, t.shape.parent[u])
  }

  /** The tree that the flush starts from: the mode is set and the parent shows the child. */
  function Shown(t: Tree, u: Subsurface): (r: Tree)
    requires Valid(t) && u in t.sub && t.shape.parent[u] != null
    ensures Valid(r)
  {
    ShowNow(PutMode(t, u, Desynchronized), u)
  }

  lemma FlushIsAtomic(t: Tree, u: Subsurface, m: Mode)
    requires Valid(t) && u in t.sub
    requires m == Desynchronized && t.shape.mode[u] != m ==> t.shape.parent[u] != null
    ensures
      var r := DoSetMode(t, u, m);
      if Flushes(t, u, m) then
        assert SubsurfaceOk(t.shape, u);
        Updated(Shown(t, u), r, t.shape.surface[u], FromCached)
      else r == if t.shape.mode[u] == m then t else PutMode(t, u, m)
  {
    assert SubsurfaceOk(t.shape, u);
    if Flushes(t, u, m) {
      var t2 := Shown(t, u);
      assert SubsurfaceOk(t2.shape, u);
      UpdateIsAtomic(t2, t.shape.surface[u], FromCached, false);
    }
  }
}
