/** Which children the destructor of a surface reaches: those in its pending and current lists. A child
    in neither is left with a dangling parent. */
module Orphans {
  import opened Seqs
  import opened Restack
  import opened SurfaceTree
  import opened AtomicCommit
  import opened RootSurface

  // ---------------------------------------------------------------- updates

  /** The update from `from` at `s` makes `x` take a list without some child of `x` that no pending list
      of `x` will name either: the own pending list goes when it is the source. */
  ghost predicate Forgets(t: Tree, s: Surface, from: Source, x: Surface)
    requires Valid(t) && s in t.surf && x in t.surf
    requires from == FromCached ==> t.shape.role[s] != null
  {
    && WillTake(t, s, from, x)
    && exists c :: c in t.sub && t.shape.parent[c] == x
                   && c !in ListAfter(t, s, from, x)
                   && ((x == s && from == FromPending) || c !in t.surf[x].pending.children)
  }

  lemma UpdateForgets(t: Tree, r: Tree, s: Surface, from: Source, x: Surface)
    requires Updated(t, r, s, from) && x in t.surf && ChildrenKnown(t, x)
    ensures ChildrenKnown(r, x) <==> !Forgets(t, s, from, x)
  {
    hide Patched;
    ReachIsKnownBefore(t, r, s, from, x);
    RecordAfter(t, r, s, from, x);
  }

  lemma RecordAfter(t: Tree, r: Tree, s: Surface, from: Source, x: Surface)
    requires Updated(t, r, s, from) && x in t.surf
    ensures r.sub.Keys == t.sub.Keys
    ensures r.surf[x].current.children
         == if WillTake(t, s, from, x) then ListAfter(t, s, from, x) else t.surf[x].current.children
    ensures r.surf[x].pending.children
         == if x == s && from == FromPending then ListAfter(t, s, from, x) else t.surf[x].pending.children
  {
    ReachIsKnownBefore(t, r, s, from, x);
    if Reached(r, s, x) { ListIsKnownBefore(t, r, s, from, x); }
    assert r.surf[x] == Expected(t, r, s, from, x);
    assert RoleOk(t.shape, x);
  }

  // ---------------------------------------------------------------- every operation

  /** The one way to lose sight of a child, told before the operation. */
  ghost predicate LosesChildren(t: Tree, op: Op, x: Surface)
    requires Enabled(t, op) && x in t.surf
  {
    match op
    case CommitSurface(s) => !SyncedRole(t.shape, s) && Forgets(t, s, FromPending, x)
    case SetMode(u, m) =>
      && Flushes(t, u, m)
      && (assert SubsurfaceOk(t.shape, u); Forgets(Shown(t, u), t.shape.surface[u], FromCached, x))
    case _ => false
  }

  /** The lists of `x` name the same subsurfaces as before. */
  ghost predicate SameLists(t: Tree, r: Tree, x: Surface) {
    && x in t.surf && x in r.surf
    && SameElements(t.surf[x].current.children, r.surf[x].current.children)
    && SameElements(t.surf[x].pending.children, r.surf[x].pending.children)
  }

  lemma SameKnown(t: Tree, r: Tree, x: Surface)
    requires Valid(t) && Valid(r) && SameLists(t, r, x) && r.shape.parent == t.shape.parent
    ensures ChildrenKnown(r, x) <==> ChildrenKnown(t, x)
  {
  }

  lemma CommitKnown(t: Tree, s: Surface, x: Surface)
    requires Valid(t) && s in t.surf && x in t.surf && ChildrenKnown(t, x)
    ensures ChildrenKnown(DoCommit(t, s), x) <==> !LosesChildren(t, CommitSurface(s), x)
  {
    if SyncedRole(t.shape, s) {
      assert RoleOk(t.shape, s);
      SameKnown(t, DoCommit(t, s), x);
    } else {
      CommitIsAtomic(t, s);
      UpdateForgets(t, DoCommit(t, s), s, FromPending, x);
    }
  }

  lemma SetModeKnown(t: Tree, u: Subsurface, m: Mode, x: Surface)
    requires Enabled(t, SetMode(u, m)) && x in t.surf && ChildrenKnown(t, x)
    ensures ChildrenKnown(DoSetMode(t, u, m), x) <==> !LosesChildren(t, SetMode(u, m), x)
  {
    FlushIsAtomic(t, u, m);
    assert SubsurfaceOk(t.shape, u);
    if Flushes(t, u, m) {
      ShownKnown(t, u, x);
      hide DoSetMode, Shown;
      UpdateForgets(Shown(t, u), DoSetMode(t, u, m), t.shape.surface[u], FromCached, x);
    }
  }

  lemma ShownKnown(t: Tree, u: Subsurface, x: Surface)
    requires Valid(t) && u in t.sub && t.shape.parent[u] != null && x in t.surf && ChildrenKnown(t, x)
    ensures x in Shown(t, u).surf && ChildrenKnown(Shown(t, u), x)
  {
  }

  lemma CreateSubsurfaceKnown(t: Tree, u: Subsurface, s: Surface, p: Surface, x: Surface)
    requires Enabled(t, CreateSubsurface(u, s, p)) && x in t.surf && ChildrenKnown(t, x)
    ensures x in DoCreateSubsurface(t, u, s, p).surf && ChildrenKnown(DoCreateSubsurface(t, u, s, p), x)
  {
    JoinedIsReady(t, u, s, p);
    AttachedParents(t.shape, u, s, p);
    hide Joined, Attached, Under;
    JoinedSurf(t, u, s, p);
  }

  lemma AttachedParents(sh: Shape, u: Subsurface, s: Surface, p: Surface)
    requires ValidShape(sh) && u !in sh.surface && s in sh.role && p in sh.role
    requires sh.role[s] == null && !Under(sh, s, p)
    ensures Attached(sh, u, s, p).parent == sh.parent[u := p]
  {
  }

  lemma JoinedSurf(t: Tree, u: Subsurface, s: Surface, p: Surface)
    requires Valid(t) && u !in t.sub && s in t.surf && p in t.surf
    requires t.shape.role[s] == null && !Under(t.shape, s, p)
    ensures Joined(t, u, s, p).surf == t.surf && Joined(t, u, s, p).sub.Keys == t.sub.Keys + {u}
  {
  }

  /** A child that leaves does not take others along. */
  lemma DetachKnown(t: Tree, u: Subsurface, x: Surface)
    requires Valid(t) && u in t.sub && x in t.surf && ChildrenKnown(t, x)
    ensures x in Detach(t, u).surf && Detach(t, u).sub.Keys == t.sub.Keys == t.shape.parent.Keys
    ensures Detach(t, u).shape == t.shape
    ensures forall c :: c in t.sub && t.shape.parent[c] == x && c != u ==>
      c in Detach(t, u).surf[x].current.children || c in Detach(t, u).surf[x].pending.children
  {
    hide NowhereListed;
    assert SubsurfaceOk(t.shape, u);
  }

  lemma DestroySubsurfaceKnown(t: Tree, u: Subsurface, x: Surface)
    requires Valid(t) && u in t.sub && x in t.surf && ChildrenKnown(t, x)
    ensures x in DoDestroySubsurface(t, u).surf && ChildrenKnown(DoDestroySubsurface(t, u), x)
  {
    hide Detach, DropCache, NowhereListed, Valid;
    DetachKnown(t, u, x);
    var d := Detach(t, u);
    DropCacheIs(d, u);
    ForgetIs(DropCache(d, u), u);
  }

  lemma DestroySurfaceKnown(t: Tree, y: Surface, x: Surface)
    requires Valid(t) && y in t.surf && x in t.surf && x != y && ChildrenKnown(t, x)
    ensures x in DoDestroySurface(t, y).surf && ChildrenKnown(DoDestroySurface(t, y), x)
  {
    assert RoleOk(t.shape, y);
    if t.shape.role[y] != null { DetachKnown(t, t.shape.role[y], x); }
    hide Detach, NowhereListed;
  }

  lemma PlaceKnown(t: Tree, u: Subsurface, sibling: Surface, dir: Direction, x: Surface)
    requires Valid(t) && u in t.sub && sibling in t.surf && x in t.surf && ChildrenKnown(t, x)
    ensures ChildrenKnown(DoPlace(t, u, sibling, dir), x)
  {
    assert SubsurfaceOk(t.shape, u);
    var p := t.shape.parent[u];
    if p != null {
      SourceIsOk(t, p, FromPending);
      RaiseRestacks(t.surf[p].pending.children, u, SiblingOf(t.shape, p, sibling));
      LowerRestacks(t.surf[p].pending.children, u, SiblingOf(t.shape, p, sibling));
      hide Raise, Lower, NoDup, Without;
    }
  }

  lemma RecordLists(t: Tree, op: Op, x: Surface)
    requires Enabled(t, op) && x in t.surf
    requires op.StateRequest? || op.SetPosition?
    ensures Step(t, op).shape == t.shape && SameLists(t, Step(t, op), x)
  {
    hide Valid;
  }

  lemma BufferGoneLists(t: Tree, s: Surface, b: Buffer, x: Surface)
    requires Valid(t) && s in t.surf && x in t.surf
    ensures SameLists(t, DoBufferGone(t, s, b), x)
  {
    assert RoleOk(t.shape, s);
  }

  lemma AnswerLists(t: Tree, op: Op, x: Surface)
    requires Enabled(t, op) && x in t.surf
    requires op.LockPresentation? || op.AnswerPresentation? || op.OutputGone?
    ensures Step(t, op).shape == t.shape && SameLists(t, Step(t, op), x)
  {
    hide Valid;
  }

  lemma FeedbackGoneLists(t: Tree, s: Surface, place: Place, fb: nat, x: Surface)
    requires Enabled(t, FeedbackGone(s, place, fb)) && x in t.surf
    ensures SameLists(t, DoFeedbackGone(t, s, place, fb), x)
  {
    hide Dropped;
    SourceIsOk(t, s, FromPending);
    assert RoleOk(t.shape, s);
  }

  lemma CreateSurfaceKnown(t: Tree, s: Surface, x: Surface)
    requires Enabled(t, CreateSurface(s)) && x in t.surf
    ensures
      var r := DoCreateSurface(t, s);
      x in r.surf && (ChildrenKnown(r, x) <==> ChildrenKnown(t, x))
  {
    SameKnown(t, DoCreateSurface(t, s), x);
  }

  /** Exactly when an operation makes a surface lose sight of one of its children: an update from
      pending without the flag, or with a list that a removal has outdated, while some child is in the
      pending list only; or an update from the cache with a list that misses a child which the pending
      list does not name. */
  lemma ChildrenAreLostIff(t: Tree, op: Op, x: Surface)
    requires Enabled(t, op) && x in t.surf && op != DestroySurface(x) && ChildrenKnown(t, x)
    ensures x in Step(t, op).surf
    ensures ChildrenKnown(Step(t, op), x) <==> !LosesChildren(t, op, x)
  {
    hide ChildrenKnown, LosesChildren, Valid, DoCreateSurface, DoCreateSubsurface, DoDestroySurface,
         DoDestroySubsurface, DoRequest, DoCommit, DoSetMode, DoSetPosition, DoPlace, DoBufferGone, Render, DoLock,
         DoAnswer, DoOutputGone, DoFeedbackGone;
    StaysThere(t, op, x);
    match op {
      case CreateSurface(s) => CreateSurfaceKnown(t, s, x);
      case CreateSubsurface(u, s, p) => CreateSubsurfaceKnown(t, u, s, p, x);
      case DestroySurface(y) => DestroySurfaceKnown(t, y, x);
      case DestroySubsurface(u) => DestroySubsurfaceKnown(t, u, x);
      case CommitSurface(s) => CommitKnown(t, s, x);
      case SetMode(u, m) => SetModeKnown(t, u, m, x);
      case Place(u, sibling, dir) => PlaceKnown(t, u, sibling, dir, x);
      case FrameRendered(s) =>
        RenderOnRoot(t, s, x);
        SameKnown(t, Render(t, s), x);
      case FeedbackGone(s, place, fb) =>
        FeedbackGoneLists(t, s, place, fb, x);
        SameKnown(t, DoFeedbackGone(t, s, place, fb), x);
      case BufferGone(s, buffer) =>
        BufferGoneLists(t, s, buffer, x);
        SameKnown(t, DoBufferGone(t, s, buffer), x);
      case LockPresentation(_, _) => AnswerLists(t, op, x); SameKnown(t, Step(t, op), x);
      case AnswerPresentation(_, _, _) => AnswerLists(t, op, x); SameKnown(t, Step(t, op), x);
      case OutputGone(_, _) => AnswerLists(t, op, x); SameKnown(t, Step(t, op), x);
      case StateRequest(_, _) => RecordLists(t, op, x); SameKnown(t, Step(t, op), x);
      case SetPosition(_, _) => RecordLists(t, op, x); SameKnown(t, Step(t, op), x);
    }
    if !op.CommitSurface? && !op.SetMode? { OnlyUpdatesLose(t, op, x); }
  }

  lemma OnlyUpdatesLose(t: Tree, op: Op, x: Surface)
    requires Enabled(t, op) && x in t.surf && !op.CommitSurface? && !op.SetMode?
    ensures !LosesChildren(t, op, x)
  {
  }

  lemma StaysThere(t: Tree, op: Op, x: Surface)
    requires Enabled(t, op) && x in t.surf && op != DestroySurface(x)
    ensures x in Step(t, op).surf
  {
  }

  // ---------------------------------------------------------------- roots

  /** The destructor of a surface without a role reaches every child. */
  lemma RootKnowsItsChildren(t: Tree, s: Surface)
    requires Valid(t) && s in t.surf && RootInvariant(t, s)
    ensures ChildrenKnown(t, s) && Strays(t, s) == {}
  {
    assert forall u :: u in t.sub && t.shape.parent[u] == s ==> u in Children(t.shape, s);
  }

  /** A surface that was never given a role never loses sight of a child, whatever happens around it. */
  lemma NeverASubsurfaceLeavesNoStrays(t: Tree, s: Surface, ops: seq<Op>)
    requires Enabled(t, CreateSurface(s)) && EnabledRun(DoCreateSurface(t, s), ops)
    requires StaysRootThrough(DoCreateSurface(t, s), ops, s)
    ensures
      var end := Run(DoCreateSurface(t, s), ops);
      s in end.surf && ChildrenKnown(end, s) && Strays(end, s) == {}
  {
    NewSurfaceIsRoot(t, s);
    RootRefinesSimple(DoCreateSurface(t, s), ops, s);
    RootKnowsItsChildren(Run(DoCreateSurface(t, s), ops), s);
  }
}
