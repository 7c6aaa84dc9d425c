/** Runs of the surface tree that end where its promises end. They start in any tree and make the
    surfaces they need. */
module Scenarios {
  import opened Seqs
  import opened SurfaceTree
  import opened AtomicCommit
  import opened Callbacks
  import opened Orphans
  import opened RootSurface
  import Content
  import Family

  // ---------------------------------------------------------------- runs of single steps

  lemma RunOfOne(t: Tree, op: Op)
    requires Enabled(t, op)
    ensures EnabledRun(t, [op]) && Run(t, [op]) == Step(t, op)
  {
    hide Enabled, Step;
    assert [op][1..] == [];
  }

  lemma {:induction false} RunAppend(t: Tree, a: seq<Op>, b: seq<Op>)
    requires Valid(t) && EnabledRun(t, a) && EnabledRun(Run(t, a), b)
    ensures EnabledRun(t, a + b) && Run(t, a + b) == Run(Run(t, a), b)
    decreases |a|
  {
    hide Enabled, Step, Valid;
    if a == [] {
      assert a + b == b;
    } else {
      assert (a + b)[0] == a[0] && (a + b)[1..] == a[1..] + b;
      RunAppend(Step(t, a[0]), a[1..], b);
    }
  }

  /** A run so far, and one more step. */
  lemma OneMore(t: Tree, ops: seq<Op>, op: Op)
    requires Valid(t) && EnabledRun(t, ops) && Enabled(Run(t, ops), op)
    ensures EnabledRun(t, ops + [op]) && Run(t, ops + [op]) == Step(Run(t, ops), op)
  {
    hide Enabled, Step;
    RunOfOne(Run(t, ops), op);
    RunAppend(t, ops, [op]);
  }

  // ---------------------------------------------------------------- a small family

  /** `s` plays the role `u` for `p`, synchronized; nothing was requested on `s` yet, and it has no children. */
  ghost predicate Newborn(t: Tree, s: Surface, u: Subsurface, p: Surface) {
    && Valid(t) && s in t.surf && p in t.surf && u in t.sub && s != p
    && t.shape.role[s] == u && t.shape.surface[u] == s && t.shape.parent[u] == p && t.shape.mode[u] == Synchronized
    && t.surf[s] == SurfaceRec(Blank([]), Blank([]), 0, map[], [])
    && t.sub[u].cached == Blank([])
    && forall v :: v in t.sub ==> t.shape.parent[v] != s
  }

  lemma MadeSurface(t: Tree, s: Surface)
    requires Valid(t) && s !in t.surf
    ensures Enabled(t, CreateSurface(s))
    ensures
      var r := Step(t, CreateSurface(s));
      && r.surf == t.surf[s := SurfaceRec(Blank([]), Blank([]), 0, map[], [])] && r.sub == t.sub
      && r.shape.role == t.shape.role[s := null] && r.shape.surface == t.shape.surface
      && r.shape.parent == t.shape.parent && r.shape.mode == t.shape.mode
  {
  }

  lemma MadeSubsurface(t: Tree, u: Subsurface, s: Surface, p: Surface)
    requires Enabled(t, CreateSubsurface(u, s, p))
    ensures
      var r := Step(t, CreateSubsurface(u, s, p));
      && r.surf.Keys == t.surf.Keys && r.sub.Keys == t.sub.Keys + {u}
      && r.shape.role == t.shape.role[s := u] && r.shape.surface == t.shape.surface[u := s]
      && r.shape.parent == t.shape.parent[u := p] && r.shape.mode == t.shape.mode[u := Synchronized]
      && (forall x :: x in t.surf && x != p ==> r.surf[x] == t.surf[x])
      && r.surf[p] == t.surf[p].(pending := t.surf[p].pending.(
           children := t.surf[p].pending.children + [u], updates := t.surf[p].pending.updates + {ChildrenSet}))
      && (s != p ==> r.sub[u].cached == Blank([]))
      && (t.shape.role[p] != null ==>
            t.shape.role[p] in t.sub
            && r.sub[t.shape.role[p]].cached
               == t.sub[t.shape.role[p]].cached.(children := t.sub[t.shape.role[p]].cached.children + [u]))
  {
    JoinedIsReady(t, u, s, p);
    JoinedFacts(t, u, s, p);
    hide Joined, Attached, Under;
    assert RoleOk(t.shape, p);
  }

  lemma JoinedFacts(t: Tree, u: Subsurface, s: Surface, p: Surface)
    requires Enabled(t, CreateSubsurface(u, s, p))
    ensures
      var j := Joined(t, u, s, p);
      && j.shape == Attached(t.shape, u, s, p) && j.surf == t.surf
      && j.sub == t.sub[u := SubRec(Point(0, 0), Point(0, 0), false, Blank([]))]
      && j.shape.role == t.shape.role[s := u] && j.shape.surface == t.shape.surface[u := s]
      && j.shape.parent == t.shape.parent[u := p] && j.shape.mode == t.shape.mode[u := Synchronized]
  {
  }

  lemma RootNotUnder(sh: Shape, s: Surface, p: Surface)
    requires ValidShape(sh) && s in sh.role && p in sh.role && sh.role[p] == null && s != p
    ensures !Under(sh, s, p)
  {
  }

  function Birth(p: Surface, s: Surface, u: Subsurface): seq<Op> {
    [CreateSurface(p)] + [CreateSurface(s)] + [CreateSubsurface(u, s, p)]
  }

  ghost predicate Fresh(t: Tree, p: Surface, s: Surface, u: Subsurface) {
    Valid(t) && p !in t.surf && s !in t.surf && s != p && u !in t.sub
  }

  lemma Born(t: Tree, p: Surface, s: Surface, u: Subsurface)
    requires Fresh(t, p, s, u)
    ensures EnabledRun(t, Birth(p, s, u))
    ensures
      var r := Run(t, Birth(p, s, u));
      && Newborn(r, s, u, p) && r.shape.role[p] == null
      && r.surf.Keys == t.surf.Keys + {p, s} && r.sub.Keys == t.sub.Keys + {u}
  {
    hide Step, EnabledRun, Run, Enabled, Newborn, Valid;
    BornFromTwo(t, p, s, u);
    RunOfOne(t, CreateSurface(p));
    OneMore(t, [CreateSurface(p)], CreateSurface(s));
    OneMore(t, [CreateSurface(p)] + [CreateSurface(s)], CreateSubsurface(u, s, p));
  }

  lemma BornFromTwo(t: Tree, p: Surface, s: Surface, u: Subsurface)
    requires Fresh(t, p, s, u)
    ensures Enabled(t, CreateSurface(p))
    ensures
      var t1 := Step(t, CreateSurface(p));
      && Enabled(t1, CreateSurface(s))
      && var t2 := Step(t1, CreateSurface(s));
      && Enabled(t2, CreateSubsurface(u, s, p))
      && var r := Step(t2, CreateSubsurface(u, s, p));
      && Newborn(r, s, u, p) && p in r.shape.role && r.shape.role[p] == null
      && r.surf.Keys == t.surf.Keys + {p, s} && r.sub.Keys == t.sub.Keys + {u}
  {
    hide Step, Under, Newborn;
    TwoMade(t, p, s, u);
    RoleGiven(Step(Step(t, CreateSurface(p)), CreateSurface(s)), p, s, u);
  }

  /** Two surfaces without role or children, `s` with nothing requested. */
  ghost predicate TwoNew(t: Tree, p: Surface, s: Surface, u: Subsurface) {
    && Valid(t) && p in t.surf && s in t.surf && s != p && u !in t.sub
    && t.shape.role[s] == null && t.shape.role[p] == null
    && t.surf[s] == SurfaceRec(Blank([]), Blank([]), 0, map[], [])
    && forall v :: v in t.sub ==> t.shape.parent[v] != s
  }

  lemma TwoMade(t: Tree, p: Surface, s: Surface, u: Subsurface)
    requires Fresh(t, p, s, u)
    ensures Enabled(t, CreateSurface(p)) && Enabled(Step(t, CreateSurface(p)), CreateSurface(s))
    ensures
      var r := Step(Step(t, CreateSurface(p)), CreateSurface(s));
      TwoNew(r, p, s, u) && r.surf.Keys == t.surf.Keys + {p, s} && r.sub.Keys == t.sub.Keys
  {
    NobodysParent(t, s);
    MadeSurface(t, p);
    hide Step;
    MadeSurface(Step(t, CreateSurface(p)), s);
  }

  lemma RoleGiven(t: Tree, p: Surface, s: Surface, u: Subsurface)
    requires TwoNew(t, p, s, u)
    ensures Enabled(t, CreateSubsurface(u, s, p))
    ensures
      var r := Step(t, CreateSubsurface(u, s, p));
      && Newborn(r, s, u, p) && p in r.shape.role && r.shape.role[p] == null
      && r.surf.Keys == t.surf.Keys && r.sub.Keys == t.sub.Keys + {u}
  {
    RootNotUnder(t.shape, s, p);
    MadeSubsurface(t, u, s, p);
    hide Step, Under;
  }

  lemma NobodysParent(t: Tree, s: Surface)
    requires Valid(t) && s !in t.surf
    ensures forall v :: v in t.sub ==> v in t.shape.parent && t.shape.parent[v] != s
  {
    forall v | v in t.sub ensures t.shape.parent[v] != s { assert SubsurfaceOk(t.shape, v); }
  }

  /** A child `w` of the newborn `s`, a newborn itself. */
  function Offspring(s: Surface, w: Surface, v: Subsurface): seq<Op> {
    [CreateSurface(w)] + [CreateSubsurface(v, w, s)]
  }

  /** `s` with its role `u` and its one child, which only the pending and the cached list name yet. */
  ghost predicate Expecting(t: Tree, p: Surface, s: Surface, u: Subsurface, v: Subsurface) {
    && Valid(t) && s in t.surf && p in t.surf && u in t.sub && v in t.sub && s != p && u != v
    && t.shape.role[s] == u && t.shape.role[p] == null
    && t.shape.surface[u] == s && t.shape.parent[u] == p && t.shape.mode[u] == Synchronized
    && t.shape.parent[v] == s
    && t.surf[s].current == Blank([]) && t.surf[s].pending.children == [v]
  }

  lemma OffspringBorn(t: Tree, p: Surface, s: Surface, u: Subsurface, w: Surface, v: Subsurface)
    requires Newborn(t, s, u, p) && t.shape.role[p] == null && w !in t.surf && v !in t.sub
    ensures EnabledRun(t, Offspring(s, w, v))
    ensures
      var r := Run(t, Offspring(s, w, v));
      Newborn(r, w, v, s) && Expecting(r, p, s, u, v)
  {
    assert Valid(t);
    hide Step, EnabledRun, Run, Enabled, Newborn, Valid, Expecting;
    OffspringSteps(t, p, s, u, w, v);
    RunOfOne(t, CreateSurface(w));
    OneMore(t, [CreateSurface(w)], CreateSubsurface(v, w, s));
  }

  lemma OffspringSteps(t: Tree, p: Surface, s: Surface, u: Subsurface, w: Surface, v: Subsurface)
    requires Newborn(t, s, u, p) && t.shape.role[p] == null && w !in t.surf && v !in t.sub
    ensures Enabled(t, CreateSurface(w))
    ensures
      var t1 := Step(t, CreateSurface(w));
      && Enabled(t1, CreateSubsurface(v, w, s))
      && var r := Step(t1, CreateSubsurface(v, w, s));
      && Newborn(r, w, v, s) && Expecting(r, p, s, u, v)
  {
    hide Step, SurfaceOk, SubsurfaceOk, CacheOk;
    NobodysParent(t, w);
    MadeSurface(t, w);
    var t1 := Step(t, CreateSurface(w));
    RootNotUnder(t1.shape, w, p);
    assert !Under(t1.shape, w, s);
    hide Under, Valid;
    MadeSubsurface(t1, v, w, s);
  }

  // ---------------------------------------------------------------- a child that is left behind

  lemma ParkedLists(t: Tree, s: Surface)
    requires Valid(t) && s in t.surf && SyncedRole(t.shape, s)
    ensures
      var r := DoCommit(t, s);
      && r.shape == t.shape && r.surf.Keys == t.surf.Keys && r.sub.Keys == t.sub.Keys
      && r.surf[s].current == t.surf[s].current
      && r.surf[s].pending == Blank(t.surf[s].pending.children)
      && Front(r.surf[s]) == Front(t.surf[s])
      && CachedCallbacks(r, s) == t.surf[s].pending.callbacks
  {
    assert RoleOk(t.shape, s);
    DropKeepsLog(t.surf[s].sent, t.sub[t.shape.role[s]].cached.feedbacks);
  }

  lemma DismissedLists(t: Tree, s: Surface, u: Subsurface)
    requires Valid(t) && s in t.surf && u in t.sub && t.shape.surface[u] == s && t.shape.parent[u] != s
    ensures
      var r := DoDestroySubsurface(t, u);
      && s in r.surf && r.sub.Keys == t.sub.Keys - {u} && r.shape.role[s] == null
      && r.surf[s].current == t.surf[s].current && r.surf[s].pending == t.surf[s].pending
      && forall v :: v in r.sub ==> r.shape.parent[v] == t.shape.parent[v]
  {
    hide NowhereListed;
    assert SubsurfaceOk(t.shape, u);
  }

  function Abandon(s: Surface, u: Subsurface): seq<Op> {
    [CommitSurface(s)] + [DestroySubsurface(u)] + [CommitSurface(s)]
  }

  /** From there: the list is parked in the cache, the cache goes with the role, and the next commit
      replaces the pending list by a current one that never had the child. */
  lemma ChildIsAbandoned(t: Tree, p: Surface, s: Surface, u: Subsurface, v: Subsurface)
    requires Expecting(t, p, s, u, v)
    ensures EnabledRun(t, Abandon(s, u))
    ensures
      var r := Run(t, Abandon(s, u));
      && Valid(r) && s in r.surf && v in Strays(r, s) && !ChildrenKnown(r, s)
      && Enabled(r, DestroySurface(s))
  {
    AbandonSteps(t, p, s, u, v);
    assert Valid(t);
    hide Step, EnabledRun, Run, Valid, Expecting, Strays, ChildrenKnown;
    RunOfOne(t, CommitSurface(s));
    OneMore(t, [CommitSurface(s)], DestroySubsurface(u));
    OneMore(t, [CommitSurface(s)] + [DestroySubsurface(u)], CommitSurface(s));
  }

  /** No role, nothing current, and no flag that would make the pending list current. */
  ghost predicate Deserted(t: Tree, s: Surface, v: Subsurface) {
    && Valid(t) && s in t.surf && v in t.sub && t.shape.role[s] == null && t.shape.parent[v] == s
    && t.surf[s].current.children == [] && ChildrenSet !in t.surf[s].pending.updates
  }

  lemma ParkThenDismiss(t: Tree, p: Surface, s: Surface, u: Subsurface, v: Subsurface)
    requires Expecting(t, p, s, u, v)
    ensures u in DoCommit(t, s).sub && Deserted(DoDestroySubsurface(DoCommit(t, s), u), s, v)
  {
    ParkedLists(t, s);
    hide DoCommit;
    DismissedLists(DoCommit(t, s), s, u);
  }

  lemma AbandonSteps(t: Tree, p: Surface, s: Surface, u: Subsurface, v: Subsurface)
    requires Expecting(t, p, s, u, v)
    ensures Enabled(t, CommitSurface(s))
    ensures
      var t1 := Step(t, CommitSurface(s));
      && Enabled(t1, DestroySubsurface(u))
      && var t2 := Step(t1, DestroySubsurface(u));
      && Enabled(t2, CommitSurface(s))
      && var r := Step(t2, CommitSurface(s));
      && Valid(r) && s in r.surf && v in Strays(r, s) && !ChildrenKnown(r, s)
  {
    hide DoDestroySubsurface, DoCommit, Strays, ChildrenKnown;
    ParkThenDismiss(t, p, s, u, v);
    CommitAbandons(DoDestroySubsurface(DoCommit(t, s), u), s, v);
  }

  lemma CommitAbandons(t: Tree, s: Surface, v: Subsurface)
    requires Deserted(t, s, v)
    ensures
      var r := DoCommit(t, s);
      s in r.surf && v in Strays(r, s) && !ChildrenKnown(r, s)
  {
    hide DoCommit;
    CommitIsAtomic(t, s);
    RecordAfter(t, DoCommit(t, s), s, FromPending, s);
  }

  /** In any tree, whatever its state: a child of a surface that had a role once ends in neither of the
      lists that the destructor of the surface goes through. */
  lemma AbandonedChildRun(t: Tree, p: Surface, s: Surface, u: Subsurface, w: Surface, v: Subsurface)
    requires Fresh(t, p, s, u) && w !in t.surf && w != p && w != s && v !in t.sub && v != u
    ensures
      var ops := Birth(p, s, u) + Offspring(s, w, v) + Abandon(s, u);
      && EnabledRun(t, ops)
      && var r := Run(t, ops);
      && Valid(r) && s in r.surf && v in Strays(r, s) && !ChildrenKnown(r, s)
      && Enabled(r, DestroySurface(s))
  {
    hide EnabledRun, Run, Strays, ChildrenKnown, Newborn, Expecting;
    Born(t, p, s, u);
    var t1 := Run(t, Birth(p, s, u));
    OffspringBorn(t1, p, s, u, w, v);
    var t2 := Run(t1, Offspring(s, w, v));
    ChildIsAbandoned(t2, p, s, u, v);
    RunAppend(t, Birth(p, s, u), Offspring(s, w, v));
    RunAppend(t, Birth(p, s, u) + Offspring(s, w, v), Abandon(s, u));
  }

  // ---------------------------------------------------------------- a callback that is lost

  function Request(s: Surface, a: nat): Op {
    StateRequest(s, RequestFrame(a))
  }

  /** Asks for `a` and commits, asks for `b` and commits. */
  function TwoFrames(s: Surface, a: nat, b: nat): seq<Op> {
    [Request(s, a)] + [CommitSurface(s)] + [Request(s, b)] + [CommitSurface(s)]
  }

  /** The three parts of the queue of `s`. */
  ghost predicate Waits(t: Tree, s: Surface, front: seq<nat>, cached: seq<nat>, pending: seq<nat>) {
    && Valid(t) && s in t.surf
    && Front(t.surf[s]) == front && CachedCallbacks(t, s) == cached && t.surf[s].pending.callbacks == pending
  }

  lemma Asked(t: Tree, s: Surface, a: nat, front: seq<nat>, cached: seq<nat>)
    requires Waits(t, s, front, cached, [])
    ensures Enabled(t, Request(s, a))
    ensures
      var r := Step(t, Request(s, a));
      Waits(r, s, front, cached, [a]) && r.shape == t.shape
  {
    SourceIsOk(t, s, FromPending);
    assert RoleOk(t.shape, s);
  }

  lemma Parked(t: Tree, s: Surface, front: seq<nat>, cached: seq<nat>, pending: seq<nat>)
    requires Waits(t, s, front, cached, pending) && SyncedRole(t.shape, s)
    ensures Enabled(t, CommitSurface(s))
    ensures
      var r := Step(t, CommitSurface(s));
      Waits(r, s, front, pending, []) && r.shape == t.shape
  {
    ParkedLists(t, s);
    hide DoCommit, Front, CachedCallbacks;
  }

  lemma NewbornWaits(t: Tree, s: Surface, u: Subsurface, p: Surface)
    requires Newborn(t, s, u, p)
    ensures Waits(t, s, [], [], []) && SyncedRole(t.shape, s)
  {
  }

  /** The second commit of a synchronized subsurface overwrites the cache, and the first callback is
      nowhere any more. */
  lemma CallbackIsLost(t: Tree, s: Surface, u: Subsurface, p: Surface, a: nat, b: nat)
    requires Newborn(t, s, u, p)
    ensures EnabledRun(t, TwoFrames(s, a, b))
    ensures
      var r := Run(t, TwoFrames(s, a, b));
      s in r.surf && Queue(r, s) == [b] && AskedFramesIn(TwoFrames(s, a, b), s) == [a, b]
  {
    NewbornWaits(t, s, u, p);
    hide Step, EnabledRun, Run, Enabled, Newborn, Waits, SyncedRole, Front, CachedCallbacks, Valid;
    Asked(t, s, a, [], []);
    var t1 := Step(t, Request(s, a));
    Parked(t1, s, [], [], [a]);
    var t2 := Step(t1, CommitSurface(s));
    Asked(t2, s, b, [], [a]);
    var t3 := Step(t2, Request(s, b));
    Parked(t3, s, [], [a], [b]);
    FourSteps(t, Request(s, a), CommitSurface(s), Request(s, b), CommitSurface(s));
    LostQueue(Step(t3, CommitSurface(s)), s, b);
    AskedTwo(s, a, b);
  }

  lemma LostQueue(t: Tree, s: Surface, b: nat)
    requires Waits(t, s, [], [b], [])
    ensures s in t.surf && Valid(t) && Queue(t, s) == [b]
  {
  }

  lemma AskedTwo(s: Surface, a: nat, b: nat)
    ensures AskedFramesIn(TwoFrames(s, a, b), s) == [a, b]
  {
    var ops := TwoFrames(s, a, b);
    assert ops == [Request(s, a), CommitSurface(s), Request(s, b), CommitSurface(s)];
    assert AskedFramesIn(ops, s) == [a] + AskedFramesIn(ops[1..], s);
    assert AskedFramesIn(ops[1..], s) == AskedFramesIn(ops[1..][1..], s) && ops[1..][1..] == ops[2..];
    assert AskedFramesIn(ops[2..], s) == [b] + AskedFramesIn(ops[2..][1..], s) && ops[2..][1..] == ops[3..];
    assert AskedFramesIn(ops[3..], s) == AskedFramesIn(ops[3..][1..], s) && ops[3..][1..] == [];
  }

  lemma FourSteps(t: Tree, a: Op, b: Op, c: Op, d: Op)
    requires Enabled(t, a) && Enabled(Step(t, a), b) && Enabled(Step(Step(t, a), b), c)
    requires Enabled(Step(Step(Step(t, a), b), c), d)
    ensures EnabledRun(t, [a] + [b] + [c] + [d])
    ensures Run(t, [a] + [b] + [c] + [d]) == Step(Step(Step(Step(t, a), b), c), d)
  {
    assert Valid(t);
    hide Step, EnabledRun, Run, Enabled, Valid;
    RunOfOne(t, a);
    OneMore(t, [a], b);
    OneMore(t, [a] + [b], c);
    OneMore(t, [a] + [b] + [c], d);
  }

  lemma LostCallbackRun(t: Tree, p: Surface, s: Surface, u: Subsurface, a: nat, b: nat)
    requires Fresh(t, p, s, u)
    ensures
      var ops := Birth(p, s, u) + TwoFrames(s, a, b);
      && EnabledRun(t, ops)
      && var r := Run(t, ops);
      s in r.surf && Queue(r, s) == [b]
  {
    hide EnabledRun, Run, Newborn, Queue;
    Born(t, p, s, u);
    CallbackIsLost(Run(t, Birth(p, s, u)), s, u, p, a, b);
    RunAppend(t, Birth(p, s, u), TwoFrames(s, a, b));
  }

  // ---------------------------------------------------------------- a callback that is overtaken

  /** `w` below `s` below `p`, with the roles `v` and `u` in these modes. */
  ghost predicate Chain(t: Tree, p: Surface, s: Surface, u: Subsurface, w: Surface, v: Subsurface, mu: Mode, mv: Mode) {
    && Valid(t) && p in t.surf && s in t.surf && w in t.surf && u in t.sub && v in t.sub
    && s != p && w != s && w != p && u != v
    && t.shape.role[w] == v && t.shape.surface[v] == w && t.shape.parent[v] == s && t.shape.mode[v] == mv
    && t.shape.role[s] == u && t.shape.surface[u] == s && t.shape.parent[u] == p && t.shape.mode[u] == mu
    && t.shape.role[p] == null
  }

  lemma ChainSynced(t: Tree, p: Surface, s: Surface, u: Subsurface, w: Surface, v: Subsurface, mu: Mode, mv: Mode)
    requires Chain(t, p, s, u, w, v, mu, mv)
    ensures SyncedRole(t.shape, w) <==> mv == Synchronized || mu == Synchronized
    ensures SyncedRole(t.shape, s) <==> mu == Synchronized
  {
    assert IsSync(t.shape, u) <==> mu == Synchronized;
    assert IsSync(t.shape, v) <==> mv == Synchronized || IsSync(t.shape, u);
  }

  /** Below a synchronized parent, turning desynchronized only writes the mode. */
  lemma InnerTurns(t: Tree, p: Surface, s: Surface, u: Subsurface, w: Surface, v: Subsurface,
                   front: seq<nat>, cached: seq<nat>, pending: seq<nat>)
    requires Chain(t, p, s, u, w, v, Synchronized, Synchronized) && Waits(t, w, front, cached, pending)
    ensures Enabled(t, SetMode(v, Desynchronized))
    ensures
      var r := Step(t, SetMode(v, Desynchronized));
      Chain(r, p, s, u, w, v, Synchronized, Desynchronized) && Waits(r, w, front, cached, pending)
  {
    FlushIsAtomic(t, v, Desynchronized);
    ChainSynced(PutMode(t, v, Desynchronized), p, s, u, w, v, Synchronized, Desynchronized);
    hide DoSetMode, Front;
  }

  /** Turning the parent desynchronized flushes the parent's cache, and not the one below it. */
  lemma OuterTurns(t: Tree, p: Surface, s: Surface, u: Subsurface, w: Surface, v: Subsurface,
                   front: seq<nat>, cached: seq<nat>, pending: seq<nat>)
    requires Chain(t, p, s, u, w, v, Synchronized, Desynchronized) && Waits(t, w, front, cached, pending)
    ensures Enabled(t, SetMode(u, Desynchronized))
    ensures
      var r := Step(t, SetMode(u, Desynchronized));
      Chain(r, p, s, u, w, v, Desynchronized, Desynchronized) && Waits(r, w, front, cached, pending)
  {
    OuterFlushes(t, p, s, u, w, v);
    hide DoSetMode, Shown, Flushes;
    FlushIsAtomic(t, u, Desynchronized);
    SetModeShape(t, u, Desynchronized);
    ShownWaits(t, p, u, w);
    FlushWaits(t, p, s, u, w, v);
    hide Front, CachedCallbacks;
  }

  lemma FlushWaits(t: Tree, p: Surface, s: Surface, u: Subsurface, w: Surface, v: Subsurface)
    requires Chain(t, p, s, u, w, v, Synchronized, Desynchronized)
    requires Updated(Shown(t, u), DoSetMode(t, u, Desynchronized), s, FromCached)
    requires Chain(DoSetMode(t, u, Desynchronized), p, s, u, w, v, Desynchronized, Desynchronized)
    ensures
      var a, r := Shown(t, u), DoSetMode(t, u, Desynchronized);
      && w in a.surf && Front(r.surf[w]) == Front(a.surf[w]) && CachedCallbacks(r, w) == CachedCallbacks(a, w)
      && r.surf[w].pending.callbacks == a.surf[w].pending.callbacks
  {
    hide DoSetMode, Shown, Front, CachedCallbacks;
    var r := DoSetMode(t, u, Desynchronized);
    ChainSynced(r, p, s, u, w, v, Desynchronized, Desynchronized);
    FrontAfter(Shown(t, u), r, s, FromCached, w);
    CacheAfter(Shown(t, u), r, s, FromCached, w);
  }

  lemma OuterFlushes(t: Tree, p: Surface, s: Surface, u: Subsurface, w: Surface, v: Subsurface)
    requires Chain(t, p, s, u, w, v, Synchronized, Desynchronized)
    ensures Flushes(t, u, Desynchronized)
  {
    assert SubsurfaceOk(t.shape, u);
  }

  lemma ShownWaits(t: Tree, p: Surface, u: Subsurface, w: Surface)
    requires Valid(t) && u in t.sub && p in t.surf && t.shape.parent[u] == p && w in t.surf && w != p
    ensures
      var r := Shown(t, u);
      && w in r.surf && Front(r.surf[w]) == Front(t.surf[w]) && CachedCallbacks(r, w) == CachedCallbacks(t, w)
      && r.surf[w].pending.callbacks == t.surf[w].pending.callbacks
  {
    assert RoleOk(t.shape, w);
  }

  /** Asks for `a` and commits, turns both roles desynchronized, asks for `b` and commits. */
  function Overtaking(w: Surface, v: Subsurface, u: Subsurface, a: nat, b: nat): seq<Op> {
    [Request(w, a)] + [CommitSurface(w)] + [SetMode(v, Desynchronized)] + [SetMode(u, Desynchronized)]
    + ([Request(w, b)] + [CommitSurface(w)])
  }

  lemma CallbackIsOvertaken(t: Tree, p: Surface, s: Surface, u: Subsurface, w: Surface, v: Subsurface, a: nat, b: nat)
    requires Chain(t, p, s, u, w, v, Synchronized, Synchronized) && Waits(t, w, [], [], [])
    ensures EnabledRun(t, Overtaking(w, v, u, a, b))
    ensures
      var r := Run(t, Overtaking(w, v, u, a, b));
      w in r.surf && Valid(r) && Queue(r, w) == [b, a]
  {
    assert Valid(t);
    hide Step, EnabledRun, Run, Enabled, Waits, Chain, Valid, Queue;
    var t4 := TurnedDesynchronized(t, p, s, u, w, v, a);
    Asked(t4, w, b, [], [a]);
    var t5 := Step(t4, Request(w, b));
    LastOvertakes(t4, t5, p, s, u, w, v, a, b);
    RunOfOne(t4, Request(w, b));
    OneMore(t4, [Request(w, b)], CommitSurface(w));
    RunAppend(t, [Request(w, a)] + [CommitSurface(w)] + [SetMode(v, Desynchronized)] + [SetMode(u, Desynchronized)],
              [Request(w, b)] + [CommitSurface(w)]);
  }

  lemma TurnedDesynchronized(t: Tree, p: Surface, s: Surface, u: Subsurface, w: Surface, v: Subsurface, a: nat)
    returns (r: Tree)
    requires Chain(t, p, s, u, w, v, Synchronized, Synchronized) && Waits(t, w, [], [], [])
    ensures
      var ops := [Request(w, a)] + [CommitSurface(w)] + [SetMode(v, Desynchronized)] + [SetMode(u, Desynchronized)];
      EnabledRun(t, ops) && r == Run(t, ops)
    ensures Chain(r, p, s, u, w, v, Desynchronized, Desynchronized) && Waits(r, w, [], [a], [])
  {
    hide Step, EnabledRun, Run, Enabled, Waits, Front, CachedCallbacks, SyncedRole;
    Asked(t, w, a, [], []);
    var t1 := Step(t, Request(w, a));
    SameChain(t, t1, p, s, u, w, v, Synchronized, Synchronized);
    ChainSynced(t1, p, s, u, w, v, Synchronized, Synchronized);
    Parked(t1, w, [], [], [a]);
    var t2 := Step(t1, CommitSurface(w));
    SameChain(t1, t2, p, s, u, w, v, Synchronized, Synchronized);
    hide Chain, Valid;
    InnerTurns(t2, p, s, u, w, v, [], [a], []);
    var t3 := Step(t2, SetMode(v, Desynchronized));
    OuterTurns(t3, p, s, u, w, v, [], [a], []);
    FourSteps(t, Request(w, a), CommitSurface(w), SetMode(v, Desynchronized), SetMode(u, Desynchronized));
    r := Step(t3, SetMode(u, Desynchronized));
  }

  lemma SameChain(t: Tree, r: Tree, p: Surface, s: Surface, u: Subsurface, w: Surface, v: Subsurface,
                  mu: Mode, mv: Mode)
    requires Chain(t, p, s, u, w, v, mu, mv) && Valid(r) && r.shape == t.shape
    ensures Chain(r, p, s, u, w, v, mu, mv)
  {
  }

  lemma LastOvertakes(t: Tree, r: Tree, p: Surface, s: Surface, u: Subsurface, w: Surface, v: Subsurface,
                      a: nat, b: nat)
    requires Chain(t, p, s, u, w, v, Desynchronized, Desynchronized) && Waits(r, w, [], [a], [b]) && r.shape == t.shape
    ensures Enabled(r, CommitSurface(w))
    ensures
      var end := Step(r, CommitSurface(w));
      w in end.surf && Valid(end) && Queue(end, w) == [b, a]
  {
    hide DoCommit, Front, CachedCallbacks;
    SameChain(t, r, p, s, u, w, v, Desynchronized, Desynchronized);
    ChainSynced(r, p, s, u, w, v, Desynchronized, Desynchronized);
    CommitQueue(r, w, w);
  }

  lemma OvertakenCallbackRun(t: Tree, p: Surface, s: Surface, u: Subsurface, w: Surface, v: Subsurface, a: nat, b: nat)
    requires Fresh(t, p, s, u) && w !in t.surf && w != p && w != s && v !in t.sub && v != u
    ensures
      var ops := Birth(p, s, u) + Offspring(s, w, v) + Overtaking(w, v, u, a, b);
      && EnabledRun(t, ops)
      && var r := Run(t, ops);
      w in r.surf && Queue(r, w) == [b, a]
  {
    hide EnabledRun, Run, Newborn, Expecting, Chain, Waits, Queue;
    Born(t, p, s, u);
    var t1 := Run(t, Birth(p, s, u));
    OffspringBorn(t1, p, s, u, w, v);
    var t2 := Run(t1, Offspring(s, w, v));
    NewbornChain(t2, p, s, u, w, v);
    CallbackIsOvertaken(t2, p, s, u, w, v, a, b);
    RunAppend(t, Birth(p, s, u), Offspring(s, w, v));
    RunAppend(t, Birth(p, s, u) + Offspring(s, w, v), Overtaking(w, v, u, a, b));
  }

  lemma NewbornChain(t: Tree, p: Surface, s: Surface, u: Subsurface, w: Surface, v: Subsurface)
    requires Newborn(t, w, v, s) && Expecting(t, p, s, u, v)
    ensures Chain(t, p, s, u, w, v, Synchronized, Synchronized) && Waits(t, w, [], [], [])
  {
    NewbornWaits(t, w, v, s);
    assert RoleOk(t.shape, w) && RoleOk(t.shape, p);
  }

  // ---------------------------------------------------------------- a change that is lost

  /** Asks for a scale and commits, asks for an opaque region and commits. */
  function TwoChanges(s: Surface, scale: int, region: Region): seq<Op> {
    [StateRequest(s, SetScale(scale))] + [CommitSurface(s)] + [StateRequest(s, SetOpaque(region))] + [CommitSurface(s)]
  }

  ghost predicate AtStage(t: Tree, s: Surface, g: Content.Stage) {
    Valid(t) && s in t.surf && SyncedRole(t.shape, s) && Content.StageOf(t, s) == g
  }

  lemma OneChange(t: Tree, s: Surface, g: Content.Stage, op: Op)
    requires AtStage(t, s, g)
    requires op == CommitSurface(s) || (op.StateRequest? && op.s == s && !op.request.Attach?)
    ensures Enabled(t, op)
    ensures
      var e := if op.CommitSurface? then Content.Parks else Content.Asks(op.request);
      AtStage(Step(t, op), s, Content.Advance(g, e))
  {
    assert Enabled(t, op);
    hide Step, Content.StageOf, Content.Advance;
    Content.StepAdvances(t, op, s);
    Family.OthersKeepTies(t, op);
  }

  lemma NewbornStage(t: Tree, s: Surface, u: Subsurface, p: Surface)
    requires Newborn(t, s, u, p)
    ensures AtStage(t, s, Content.Stage(Content.LookOf(Blank([])), Content.NO_PATCH, Content.NO_PATCH))
  {
  }

  /** The second commit overwrites the cache, and the scale that the first one parked is nowhere any more. */
  lemma LostChangeRun(t: Tree, p: Surface, s: Surface, u: Subsurface, scale: int, region: Region)
    requires Fresh(t, p, s, u)
    ensures
      var ops := Birth(p, s, u) + TwoChanges(s, scale, region);
      && EnabledRun(t, ops)
      && var r := Run(t, ops);
      && s in r.surf && Content.StageOf(r, s).pending == Content.NO_PATCH
      && Content.StageOf(r, s).cached == Content.NO_PATCH.(opaqueRegion := Some(region))
      && Content.Promised(Content.StageOf(r, s)).scale == 1
  {
    hide EnabledRun, Run, Newborn, Step, Enabled, AtStage, Valid, Content.StageOf;
    Born(t, p, s, u);
    var t0 := Run(t, Birth(p, s, u));
    NewbornStage(t0, s, u, p);
    var g0 := Content.Stage(Content.LookOf(Blank([])), Content.NO_PATCH, Content.NO_PATCH);
    var a, c, b := StateRequest(s, SetScale(scale)), CommitSurface(s), StateRequest(s, SetOpaque(region));
    OneChange(t0, s, g0, a);
    var g1 := Content.Advance(g0, Content.Asks(SetScale(scale)));
    OneChange(Step(t0, a), s, g1, c);
    var g2 := Content.Advance(g1, Content.Parks);
    OneChange(Step(Step(t0, a), c), s, g2, b);
    var g3 := Content.Advance(g2, Content.Asks(SetOpaque(region)));
    OneChange(Step(Step(Step(t0, a), c), b), s, g3, c);
    var g4 := Content.Advance(g3, Content.Parks);
    FourSteps(t0, a, c, b, c);
    RunAppend(t, Birth(p, s, u), TwoChanges(s, scale, region));
    StageReached(Run(t, Birth(p, s, u) + TwoChanges(s, scale, region)), s, g4);
  }

  lemma StageReached(t: Tree, s: Surface, g: Content.Stage)
    requires AtStage(t, s, g)
    ensures Valid(t) && s in t.surf && Content.StageOf(t, s) == g
  {
  }
}
