/** Presentation feedback is conserved: what a client asked for waits in exactly one place or was
    answered once. */
module Feedback {
  import opened Seqs
  import opened SurfaceTree
  import opened AtomicCommit
  import TreeWalk

  // ---------------------------------------------------------------- counting one feedback

  /** How often `f` occurs. */
  function Times(items: seq<nat>, f: nat): nat {
    if items == [] then 0 else Times(items[..|items| - 1], f) + (if items[|items| - 1] == f then 1 else 0)
  }

  function TimesIn(slot: Option<Feedbacks>, f: nat): nat {
    if slot.Some? then Times(slot.value.items, f) else 0
  }

  /** Over the waiting entries with an id below `n`. */
  function TimesWaiting(m: map<nat, Feedbacks>, n: nat, f: nat): nat {
    if n == 0 then 0
    else TimesWaiting(m, n - 1, f) + (if n - 1 in m then Times(m[n - 1].items, f) else 0)
  }

  /** How often the events answer `f`, presented or discarded. */
  function TimesAnswered(sent: seq<Event>, f: nat): nat {
    if sent == [] then 0
    else TimesAnswered(sent[..|sent| - 1], f) + (if Answers(sent[|sent| - 1], f) then 1 else 0)
  }

  predicate Answers(e: Event, f: nat) {
    e == Presented(f) || e == Discarded(f)
  }

  function TimesCached(t: Tree, s: Surface, f: nat): nat
    requires Valid(t) && s in t.surf
  {
    assert RoleOk(t.shape, s);
    if t.shape.role[s] == null then 0 else TimesIn(t.sub[t.shape.role[s]].cached.feedbacks, f)
  }

  function TimesInRecord(r: SurfaceRec, f: nat): nat {
    TimesIn(r.pending.feedbacks, f) + TimesIn(r.current.feedbacks, f) + TimesWaiting(r.waiting, ID_LIMIT, f)
  }

  /** In how many places the feedback `f` of surface `s` still waits for its answer. */
  function Unanswered(t: Tree, s: Surface, f: nat): nat
    requires Valid(t) && s in t.surf
  {
    TimesInRecord(t.surf[s], f) + TimesCached(t, s, f)
  }

  /** Waiting and answered occurrences together. */
  function Ledger(t: Tree, s: Surface, f: nat): nat
    requires Valid(t) && s in t.surf
  {
    Unanswered(t, s, f) + TimesAnswered(t.surf[s].sent, f)
  }

  lemma {:induction false} TimesAppend(a: seq<nat>, b: seq<nat>, f: nat)
    ensures Times(a + b, f) == Times(a, f) + Times(b, f)
  {
    if b == [] {
      assert a + b == a;
    } else {
      assert (a + b)[..|a + b| - 1] == a + b[..|b| - 1];
      TimesAppend(a, b[..|b| - 1], f);
    }
  }

  lemma {:induction false} AnsweredAppend(a: seq<Event>, b: seq<Event>, f: nat)
    ensures TimesAnswered(a + b, f) == TimesAnswered(a, f) + TimesAnswered(b, f)
  {
    if b == [] {
      assert a + b == a;
    } else {
      assert (a + b)[..|a + b| - 1] == a + b[..|b| - 1];
      AnsweredAppend(a, b[..|b| - 1], f);
    }
  }

  lemma {:induction false} AnsweredItems(items: seq<nat>, f: nat)
    ensures TimesAnswered(DiscardEvents(items), f) == Times(items, f)
    ensures TimesAnswered(PresentEvents(items), f) == Times(items, f)
    ensures TimesAnswered(DoneEvents(items), f) == 0
  {
    if items != [] {
      var n := |items| - 1;
      AnsweredItems(items[..n], f);
      assert DiscardEvents(items)[..n] == DiscardEvents(items[..n]);
      assert PresentEvents(items)[..n] == PresentEvents(items[..n]);
      assert DoneEvents(items)[..n] == DoneEvents(items[..n]);
    }
  }

  lemma AnsweredDrop(sent: seq<Event>, slot: Option<Feedbacks>, f: nat)
    ensures TimesAnswered(sent + DropEvents(slot), f) == TimesAnswered(sent, f) + TimesIn(slot, f)
  {
    AnsweredAppend(sent, DropEvents(slot), f);
    if slot.Some? { AnsweredItems(slot.value.items, f); }
  }

  /** Entries that agree below `n` count the same. */
  lemma {:induction false} WaitingUntouched(m: map<nat, Feedbacks>, m': map<nat, Feedbacks>, n: nat, f: nat)
    requires forall i :: 0 <= i < n ==> ((i in m <==> i in m') && (i in m ==> m[i] == m'[i]))
    ensures TimesWaiting(m, n, f) == TimesWaiting(m', n, f)
  {
    if n > 0 { WaitingUntouched(m, m', n - 1, f); }
  }

  /** Replacing one entry changes the count by just that entry. */
  lemma {:induction false} WaitingReplace(m: map<nat, Feedbacks>, m': map<nat, Feedbacks>, id: nat, n: nat, f: nat)
    requires id < n
    requires forall i :: i != id ==> ((i in m <==> i in m') && (i in m ==> m[i] == m'[i]))
    ensures TimesWaiting(m, n, f) + (if id in m' then Times(m'[id].items, f) else 0)
            == TimesWaiting(m', n, f) + (if id in m then Times(m[id].items, f) else 0)
  {
    if n - 1 == id {
      WaitingUntouched(m, m', id, f);
    } else {
      WaitingReplace(m, m', id, n - 1, f);
    }
  }

  lemma DroppedItems(items: seq<nat>, fb: nat, f: nat)
    requires fb in items
    ensures Times(items, f) == Times(EraseAt(items, IndexOf(items, fb)), f) + (if fb == f then 1 else 0)
  {
    var i := IndexOf(items, fb);
    assert items == items[..i] + ([fb] + items[i + 1..]);
    TimesAppend(items[..i], [fb] + items[i + 1..], f);
    TimesAppend([fb], items[i + 1..], f);
    TimesAppend(items[..i], items[i + 1..], f);
    assert Times([fb], f) == if fb == f then 1 else 0;
  }

  // ---------------------------------------------------------------- one operation

  ghost predicate Conserved(t: Tree, r: Tree, s: Surface, f: nat) {
    Valid(t) && Valid(r) && s in t.surf && s in r.surf && Ledger(r, s, f) == Ledger(t, s, f)
  }

  function RecordLedger(r: SurfaceRec, f: nat): nat {
    TimesInRecord(r, f) + TimesAnswered(r.sent, f)
  }

  /** Taking a source moves its feedbacks to current and answers those that current had. */
  lemma TakenLedger(a: SurfaceRec, src: SurfaceState, f: nat)
    ensures RecordLedger(Taken(a, src), f) == RecordLedger(a, f) + TimesIn(src.feedbacks, f)
  {
    AnsweredDrop(a.sent, a.current.feedbacks, f);
  }

  lemma BlankLedger(a: SurfaceRec, children: seq<Subsurface>, f: nat)
    ensures RecordLedger(a, f) == RecordLedger(a.(pending := Blank(children)), f) + TimesIn(a.pending.feedbacks, f)
  {
  }

  lemma MarkLedger(a: SurfaceRec, marked: bool, f: nat)
    ensures RecordLedger(TreeWalk.MarkIf(a, marked), f) == RecordLedger(a, f)
  {
  }

  /** The cache after an update: emptied exactly when it was the source. */
  lemma CacheAfter(t: Tree, r: Tree, x: Surface, from: Source, s: Surface, f: nat)
    requires Updated(t, r, x, from) && s in t.surf
    ensures TimesCached(r, s, f) ==
      if (s == x && from == FromCached) || (s != x && Takes(r, x, s)) then 0 else TimesCached(t, s, f)
  {
    assert RoleOk(t.shape, s);
    var u := t.shape.role[s];
    if u != null { assert r.sub[u] == ExpectedSub(t, r, x, from, u); }
  }

  lemma UpdateConserves(t: Tree, r: Tree, x: Surface, from: Source, s: Surface, f: nat)
    requires Updated(t, r, x, from) && s in t.surf
    ensures Conserved(t, r, s, f)
  {
    hide TimesWaiting, TimesAnswered, Times, Patched;
    assert r.surf[s] == Expected(t, r, x, from, s);
    CacheAfter(t, r, x, from, s, f);
    assert RoleOk(t.shape, s);
    var marked := AboveUnmap(t, r, x, from, s);
    if Takes(r, x, s) {
      var src := TakenState(t, x, from, s);
      var taken := Taken(t.surf[s], src);
      TakenLedger(t.surf[s], src, f);
      BlankLedger(taken, taken.current.children, f);
      MarkLedger(taken, marked, f);
      MarkLedger(taken.(pending := Blank(taken.current.children)), marked, f);
    } else {
      MarkLedger(t.surf[s], marked, f);
    }
  }

  /** Parking overwrites the cache, and its feedbacks are answered. */
  lemma ParkConserves(t: Tree, x: Surface, s: Surface, f: nat)
    requires Valid(t) && x in t.surf && t.shape.role[x] != null && s in t.surf
    ensures Conserved(t, Park(t, x), s, f)
  {
    SourceIsOk(t, x, FromCached);
    assert RoleOk(t.shape, s);
    AnsweredDrop(t.surf[x].sent, t.sub[t.shape.role[x]].cached.feedbacks, f);
  }

  lemma CommitConserves(t: Tree, x: Surface, s: Surface, f: nat)
    requires Valid(t) && x in t.surf && s in t.surf
    ensures Conserved(t, DoCommit(t, x), s, f)
  {
    if SyncedRole(t.shape, x) {
      ParkConserves(t, x, s, f);
    } else {
      CommitIsAtomic(t, x);
      UpdateConserves(t, DoCommit(t, x), x, FromPending, s, f);
    }
  }

  lemma ShownConserves(t: Tree, u: Subsurface, s: Surface, f: nat)
    requires Valid(t) && u in t.sub && t.shape.parent[u] != null && s in t.surf
    ensures Conserved(t, Shown(t, u), s, f)
  {
    assert SubsurfaceOk(t.shape, u) && RoleOk(t.shape, s);
  }

  lemma SetModeConserves(t: Tree, u: Subsurface, m: Mode, s: Surface, f: nat)
    requires Enabled(t, SetMode(u, m)) && s in t.surf
    ensures Conserved(t, DoSetMode(t, u, m), s, f)
  {
    FlushIsAtomic(t, u, m);
    assert SubsurfaceOk(t.shape, u) && RoleOk(t.shape, s);
    if Flushes(t, u, m) {
      ShownConserves(t, u, s, f);
      UpdateConserves(Shown(t, u), DoSetMode(t, u, m), t.shape.surface[u], FromCached, s, f);
    }
  }

  lemma LockLedger(a: SurfaceRec, output: nat, f: nat)
    requires a.feedbackId < ID_LIMIT && CanLock(a)
    ensures RecordLedger(Locked(a, output), f) == RecordLedger(a, f)
  {
    var id := NextId(a.feedbackId);
    WaitingReplace(a.waiting, Locked(a, output).waiting, id, ID_LIMIT, f);
    AnsweredDrop(a.sent, Waiting(a, id), f);
  }

  lemma LockConserves(t: Tree, x: Surface, output: nat, s: Surface, f: nat)
    requires Valid(t) && x in t.surf && s in t.surf
    ensures Conserved(t, DoLock(t, x, output), s, f)
  {
    SourceIsOk(t, x, FromPending);
    if CanLock(t.surf[x]) { LockLedger(t.surf[x], output, f); }
  }

  lemma AnswerConserves(t: Tree, x: Surface, id: nat, presented: bool, s: Surface, f: nat)
    requires Valid(t) && x in t.surf && s in t.surf && id in t.surf[x].waiting
    ensures Conserved(t, DoAnswer(t, x, id, presented), s, f)
  {
    SourceIsOk(t, x, FromPending);
    var a, b := t.surf[x], DoAnswer(t, x, id, presented).surf[x];
    var items := a.waiting[id].items;
    WaitingReplace(a.waiting, b.waiting, id, ID_LIMIT, f);
    AnsweredItems(items, f);
    AnsweredAppend(a.sent, if presented then PresentEvents(items) else DiscardEvents(items), f);
  }

  lemma OutputGoneConserves(t: Tree, x: Surface, id: nat, s: Surface, f: nat)
    requires Enabled(t, OutputGone(x, id)) && s in t.surf
    ensures Conserved(t, DoOutputGone(t, x, id), s, f)
  {
    SourceIsOk(t, x, FromPending);
    var a, b := t.surf[x], DoOutputGone(t, x, id).surf[x];
    WaitingReplace(a.waiting, b.waiting, id, ID_LIMIT, f);
    AnsweredDrop(a.sent, Some(a.waiting[id]), f);
  }

  lemma FeedbackGoneLedger(t: Tree, x: Surface, place: Place, fb: nat, s: Surface, f: nat)
    requires Valid(t) && x in t.surf && s in t.surf && fb in Held(t, x, place)
    ensures Ledger(t, s, f) == Ledger(DoFeedbackGone(t, x, place, fb), s, f) + (if s == x && f == fb then 1 else 0)
  {
    hide Ledger, Held, DoFeedbackGone, Valid;
    match place {
      case InPending => StateFeedbackGone(t, x, place, fb, s, f);
      case InCurrent => StateFeedbackGone(t, x, place, fb, s, f);
      case InWaiting(_) => WaitingFeedbackGone(t, x, place, fb, s, f);
      case InCached => CachedFeedbackGone(t, x, place, fb, s, f);
    }
  }

  lemma StateFeedbackGone(t: Tree, x: Surface, place: Place, fb: nat, s: Surface, f: nat)
    requires Valid(t) && x in t.surf && s in t.surf && fb in Held(t, x, place) && (place.InPending? || place.InCurrent?)
    ensures Ledger(t, s, f) == Ledger(DoFeedbackGone(t, x, place, fb), s, f) + (if s == x && f == fb then 1 else 0)
  {
    hide TimesWaiting, TimesAnswered, Times, IndexOf, EraseAt, SurfaceOk, CacheOk, SubsurfaceOk;
    SourceIsOk(t, x, FromPending);
    assert RoleOk(t.shape, x) && RoleOk(t.shape, s);
    DroppedItems(Held(t, x, place), fb, f);
  }

  lemma WaitingFeedbackGone(t: Tree, x: Surface, place: Place, fb: nat, s: Surface, f: nat)
    requires Valid(t) && x in t.surf && s in t.surf && fb in Held(t, x, place) && place.InWaiting?
    ensures Ledger(t, s, f) == Ledger(DoFeedbackGone(t, x, place, fb), s, f) + (if s == x && f == fb then 1 else 0)
  {
    hide TimesWaiting, TimesAnswered, Times, IndexOf, EraseAt, SurfaceOk, CacheOk, SubsurfaceOk;
    SourceIsOk(t, x, FromPending);
    assert RoleOk(t.shape, x) && RoleOk(t.shape, s);
    DroppedItems(Held(t, x, place), fb, f);
    WaitingReplace(t.surf[x].waiting, DoFeedbackGone(t, x, place, fb).surf[x].waiting, place.id, ID_LIMIT, f);
  }

  lemma CachedFeedbackGone(t: Tree, x: Surface, place: Place, fb: nat, s: Surface, f: nat)
    requires Valid(t) && x in t.surf && s in t.surf && fb in Held(t, x, place) && place.InCached?
    ensures Ledger(t, s, f) == Ledger(DoFeedbackGone(t, x, place, fb), s, f) + (if s == x && f == fb then 1 else 0)
  {
    hide TimesWaiting, TimesAnswered, Times, IndexOf, EraseAt, SurfaceOk, CacheOk, SubsurfaceOk;
    SourceIsOk(t, x, FromPending);
    assert RoleOk(t.shape, x) && RoleOk(t.shape, s);
    DroppedItems(Held(t, x, place), fb, f);
  }

  lemma RequestRecord(a: SurfaceState, r: Request, f: nat)
    requires r.RequestFeedback? ==> a.feedbacks.Some?
    ensures TimesIn(Requested(a, r).feedbacks, f)
            == TimesIn(a.feedbacks, f) + (if r == RequestFeedback(f) then 1 else 0)
  {
    if r.RequestFeedback? {
      TimesAppend(a.feedbacks.value.items, [r.feedback], f);
      assert Times([r.feedback], f) == if r.feedback == f then 1 else 0;
    }
  }

  lemma RequestLedger(t: Tree, x: Surface, r: Request, s: Surface, f: nat)
    requires Valid(t) && x in t.surf && s in t.surf
    ensures Ledger(DoRequest(t, x, r), s, f)
            == Ledger(t, s, f) + (if s == x && r == RequestFeedback(f) then 1 else 0)
  {
    hide TimesWaiting, TimesAnswered, Times, Requested;
    SourceIsOk(t, x, FromPending);
    RequestRecord(t.surf[x].pending, r, f);
  }

  lemma RenderConserves(t: Tree, x: Surface, s: Surface, f: nat)
    requires Valid(t) && x in t.surf && s in t.surf
    ensures Conserved(t, Render(t, x), s, f)
    decreases t.shape.bound - (if x in t.shape.depth then t.shape.depth[x] else 0), 1, 0
  {
    SourceIsOk(t, x, FromPending);
    DrainConserves(t, x, s, f);
    RenderAllConserves(PutSurface(t, x, Drained(t.surf[x])), x, t.surf[x].current.children, s, f);
  }

  lemma DrainConserves(t: Tree, x: Surface, s: Surface, f: nat)
    requires Valid(t) && x in t.surf && s in t.surf && SurfaceOk(t.shape, x, Drained(t.surf[x]))
    ensures Conserved(t, PutSurface(t, x, Drained(t.surf[x])), s, f)
  {
    AnsweredItems(t.surf[x].current.callbacks, f);
    AnsweredAppend(t.surf[x].sent, DoneEvents(t.surf[x].current.callbacks), f);
    assert RoleOk(t.shape, s);
  }

  lemma {:induction false} RenderAllConserves(t: Tree, p: Surface, list: seq<Subsurface>, s: Surface, f: nat)
    requires Valid(t) && p in t.surf && ChildrenOk(t.shape, p, list) && s in t.surf
    ensures Conserved(t, RenderAll(t, p, list), s, f)
    decreases t.shape.bound - (if p in t.shape.depth then t.shape.depth[p] else 0), 0, |list|
  {
    if list != [] {
      assert SubsurfaceOk(t.shape, list[0]);
      RenderConserves(t, t.shape.surface[list[0]], s, f);
      RenderAllConserves(Render(t, t.shape.surface[list[0]]), p, list[1..], s, f);
    }
  }

  lemma PlaceConserves(t: Tree, u: Subsurface, sibling: Surface, dir: Direction, s: Surface, f: nat)
    requires Enabled(t, Place(u, sibling, dir)) && s in t.surf
    ensures Conserved(t, DoPlace(t, u, sibling, dir), s, f)
  {
    assert SubsurfaceOk(t.shape, u);
  }

  lemma PositionConserves(t: Tree, u: Subsurface, pos: Point, s: Surface, f: nat)
    requires Valid(t) && u in t.sub && s in t.surf
    ensures Conserved(t, DoSetPosition(t, u, pos), s, f)
  {
    assert RoleOk(t.shape, s);
  }

  lemma BufferGoneConserves(t: Tree, x: Surface, b: Buffer, s: Surface, f: nat)
    requires Valid(t) && x in t.surf && s in t.surf
    ensures Conserved(t, DoBufferGone(t, x, b), s, f)
  {
    hide TimesWaiting, TimesAnswered, Times, SurfaceOk, CacheOk;
    assert RoleOk(t.shape, s) && RoleOk(t.shape, x);
  }

  lemma DetachConserves(t: Tree, u: Subsurface, s: Surface, f: nat)
    requires Valid(t) && u in t.sub && s in t.surf
    ensures Conserved(t, Detach(t, u), s, f)
  {
    hide TimesWaiting, TimesAnswered, Times, Without, SubsurfaceOk, SurfaceOk, CacheOk, NowhereListed;
    assert SubsurfaceOk(t.shape, u) && RoleOk(t.shape, s);
  }

  /** Destroying a subsurface answers what its cache held. */
  lemma DestroySubsurfaceConserves(t: Tree, u: Subsurface, s: Surface, f: nat)
    requires Valid(t) && u in t.sub && s in t.surf
    ensures Conserved(t, DoDestroySubsurface(t, u), s, f)
  {
    DetachConserves(t, u, s, f);
    var d := Detach(t, u);
    assert SubsurfaceOk(t.shape, u) && RoleOk(t.shape, s);
    DropForgetLedger(d, u, s, f);
  }

  lemma DropLedger(d: Tree, u: Subsurface, s: Surface, f: nat)
    requires Valid(d) && u in d.sub && s in d.surf
    ensures Ledger(DropCache(d, u), s, f)
            == Ledger(d, s, f) + (if d.shape.surface[u] == s then TimesIn(d.sub[u].cached.feedbacks, f) else 0)
  {
    hide TimesWaiting, Times;
    assert SubsurfaceOk(d.shape, u);
    if d.shape.surface[u] == s { AnsweredDrop(d.surf[s].sent, d.sub[u].cached.feedbacks, f); }
  }

  lemma ForgetLedger(d: Tree, u: Subsurface, s: Surface, f: nat)
    requires Valid(d) && u in d.sub && s in d.surf && NowhereListed(d, u)
    ensures s in Forget(d, u).surf
    ensures Ledger(d, s, f) == Ledger(Forget(d, u), s, f)
            + (if d.shape.surface[u] == s then TimesIn(d.sub[u].cached.feedbacks, f) else 0)
  {
    hide TimesWaiting, TimesAnswered, Times;
    assert SubsurfaceOk(d.shape, u) && RoleOk(d.shape, s);
  }

  lemma DropForgetLedger(d: Tree, u: Subsurface, s: Surface, f: nat)
    requires Valid(d) && u in d.sub && s in d.surf && NowhereListed(d, u)
    ensures Conserved(d, Forget(DropCache(d, u), u), s, f)
  {
    DropLedger(d, u, s, f);
    ForgetLedger(DropCache(d, u), u, s, f);
  }

  lemma BuryConserves(d: Tree, x: Surface, s: Surface, f: nat)
    requires Valid(d) && x in d.surf && s in d.surf && s != x
    requires d.shape.role[x] != null ==> NowhereListed(d, d.shape.role[x])
    ensures Conserved(d, Bury(d, x), s, f)
  {
    hide TimesWaiting, TimesAnswered, Times;
    assert RoleOk(d.shape, s);
  }

  lemma DestroySurfaceConserves(t: Tree, x: Surface, s: Surface, f: nat)
    requires Enabled(t, DestroySurface(x)) && s in t.surf && s != x
    ensures Conserved(t, DoDestroySurface(t, x), s, f)
  {
    hide TimesWaiting, TimesAnswered, Times, Bury;
    assert RoleOk(t.shape, x);
    var u := t.shape.role[x];
    if u == null {
      BuryConserves(t, x, s, f);
    } else {
      assert SubsurfaceOk(t.shape, u);
      assert Detach(t, u).surf[x] == t.surf[x];
      DetachConserves(t, u, s, f);
      BuryConserves(Detach(t, u), x, s, f);
    }
  }

  lemma CreateSubsurfaceConserves(t: Tree, u: Subsurface, x: Surface, p: Surface, s: Surface, f: nat)
    requires Enabled(t, CreateSubsurface(u, x, p)) && s in t.surf
    ensures Conserved(t, DoCreateSubsurface(t, u, x, p), s, f)
  {
    hide Ledger, ChildAdded, Joined, Attached;
    JoinConserves(t, u, x, p, s, f);
    JoinedIsReady(t, u, x, p);
    AddChildConserves(Joined(t, u, x, p), p, u, s, f);
  }

  lemma JoinConserves(t: Tree, u: Subsurface, x: Surface, p: Surface, s: Surface, f: nat)
    requires Enabled(t, CreateSubsurface(u, x, p)) && s in t.surf
    ensures Conserved(t, Joined(t, u, x, p), s, f)
  {
    hide TimesWaiting, TimesAnswered;
    assert RoleOk(t.shape, s);
  }

  lemma AddChildConserves(t: Tree, p: Surface, u: Subsurface, s: Surface, f: nat)
    requires Valid(t) && p in t.surf && u in t.sub && s in t.surf
    requires t.shape.parent[u] == p && t.shape.surface[u] != null
    requires u !in t.surf[p].pending.children && u !in CachedChildren(t, p)
    ensures Conserved(t, ChildAdded(t, p, u), s, f)
  {
    hide TimesWaiting, TimesAnswered, Times;
    assert RoleOk(t.shape, s) && RoleOk(t.shape, p);
  }

  lemma CreateSurfaceConserves(t: Tree, x: Surface, s: Surface, f: nat)
    requires Valid(t) && x !in t.surf && s in t.surf
    ensures Conserved(t, DoCreateSurface(t, x), s, f)
  {
    assert RoleOk(t.shape, s);
  }

  // ---------------------------------------------------------------- runs

  /** How often the operation asks for `f` on `s`, and how often the client takes `f` back. */
  function Asked(op: Op, s: Surface, f: nat): nat {
    if op == StateRequest(s, RequestFeedback(f)) then 1 else 0
  }

  function Withdrawn(op: Op, s: Surface, f: nat): nat {
    if op.FeedbackGone? && op.s == s && op.feedback == f then 1 else 0
  }

  ghost predicate Balances(t: Tree, op: Op, s: Surface, f: nat)
    requires Enabled(t, op) && s in t.surf
  {
    && s in Step(t, op).surf
    && Ledger(Step(t, op), s, f) + Withdrawn(op, s, f) == Ledger(t, s, f) + Asked(op, s, f)
  }

  lemma ShapeBalances(t: Tree, op: Op, s: Surface, f: nat)
    requires Enabled(t, op) && s in t.surf && op != DestroySurface(s)
    requires op.CreateSurface? || op.CreateSubsurface? || op.DestroySurface? || op.DestroySubsurface?
    ensures Balances(t, op, s, f)
  {
    hide Ledger, DoCreateSurface, DoCreateSubsurface, DoDestroySurface, DoDestroySubsurface, DoRequest, DoCommit,
         DoSetMode, DoSetPosition, DoPlace, DoBufferGone, Render, DoLock, DoAnswer, DoOutputGone, DoFeedbackGone;
    match op {
      case CreateSurface(x) => CreateSurfaceConserves(t, x, s, f);
      case CreateSubsurface(u, x, p) => CreateSubsurfaceConserves(t, u, x, p, s, f);
      case DestroySurface(x) => DestroySurfaceConserves(t, x, s, f);
      case DestroySubsurface(u) => DestroySubsurfaceConserves(t, u, s, f);
    }
  }

  lemma RequestBalances(t: Tree, op: Op, s: Surface, f: nat)
    requires Enabled(t, op) && s in t.surf
    requires op.StateRequest? || op.SetPosition? || op.Place? || op.BufferGone?
    ensures Balances(t, op, s, f)
  {
    hide Ledger, DoCreateSurface, DoCreateSubsurface, DoDestroySurface, DoDestroySubsurface, DoRequest, DoCommit,
         DoSetMode, DoSetPosition, DoPlace, DoBufferGone, Render, DoLock, DoAnswer, DoOutputGone, DoFeedbackGone;
    match op {
      case StateRequest(x, r) => RequestLedger(t, x, r, s, f);
      case SetPosition(u, pos) => PositionConserves(t, u, pos, s, f);
      case Place(u, sibling, dir) => PlaceConserves(t, u, sibling, dir, s, f);
      case BufferGone(x, b) => BufferGoneConserves(t, x, b, s, f);
    }
  }

  lemma TreeBalances(t: Tree, op: Op, s: Surface, f: nat)
    requires Enabled(t, op) && s in t.surf
    requires op.CommitSurface? || op.SetMode? || op.FrameRendered?
    ensures Balances(t, op, s, f)
  {
    hide Ledger, DoCreateSurface, DoCreateSubsurface, DoDestroySurface, DoDestroySubsurface, DoRequest, DoCommit,
         DoSetMode, DoSetPosition, DoPlace, DoBufferGone, Render, DoLock, DoAnswer, DoOutputGone, DoFeedbackGone;
    match op {
      case CommitSurface(x) => CommitConserves(t, x, s, f);
      case SetMode(u, m) => SetModeConserves(t, u, m, s, f);
      case FrameRendered(x) => RenderConserves(t, x, s, f);
    }
  }

  lemma AnswerBalances(t: Tree, op: Op, s: Surface, f: nat)
    requires Enabled(t, op) && s in t.surf
    requires op.LockPresentation? || op.AnswerPresentation? || op.OutputGone? || op.FeedbackGone?
    ensures Balances(t, op, s, f)
  {
    hide Ledger, DoCreateSurface, DoCreateSubsurface, DoDestroySurface, DoDestroySubsurface, DoRequest, DoCommit,
         DoSetMode, DoSetPosition, DoPlace, DoBufferGone, Render, DoLock, DoAnswer, DoOutputGone, DoFeedbackGone;
    match op {
      case LockPresentation(x, output) => LockConserves(t, x, output, s, f);
      case AnswerPresentation(x, id, presented) => AnswerConserves(t, x, id, presented, s, f);
      case OutputGone(x, id) => OutputGoneConserves(t, x, id, s, f);
      case FeedbackGone(x, place, fb) => FeedbackGoneLedger(t, x, place, fb, s, f);
    }
  }

  lemma StepLedger(t: Tree, op: Op, s: Surface, f: nat)
    requires Enabled(t, op) && s in t.surf && op != DestroySurface(s)
    ensures Balances(t, op, s, f)
  {
    if op.CreateSurface? || op.CreateSubsurface? || op.DestroySurface? || op.DestroySubsurface? {
      ShapeBalances(t, op, s, f);
    } else if op.StateRequest? || op.SetPosition? || op.Place? || op.BufferGone? {
      RequestBalances(t, op, s, f);
    } else if op.CommitSurface? || op.SetMode? || op.FrameRendered? {
      TreeBalances(t, op, s, f);
    } else {
      AnswerBalances(t, op, s, f);
    }
  }

  function AskedIn(ops: seq<Op>, s: Surface, f: nat): nat {
    if ops == [] then 0 else Asked(ops[0], s, f) + AskedIn(ops[1..], s, f)
  }

  function WithdrawnIn(ops: seq<Op>, s: Surface, f: nat): nat {
    if ops == [] then 0 else Withdrawn(ops[0], s, f) + WithdrawnIn(ops[1..], s, f)
  }

  /** Over any run that does not destroy the surface: what was asked for is what waits, was answered or
      was taken back. */
  lemma {:induction false} RunLedger(t: Tree, ops: seq<Op>, s: Surface, f: nat)
    requires Valid(t) && EnabledRun(t, ops) && s in t.surf && DestroySurface(s) !in ops
    ensures s in Run(t, ops).surf
    ensures Ledger(Run(t, ops), s, f) + WithdrawnIn(ops, s, f) == Ledger(t, s, f) + AskedIn(ops, s, f)
    decreases |ops|
  {
    if ops != [] {
      StepLedger(t, ops[0], s, f);
      RunLedger(Step(t, ops[0]), ops[1..], s, f);
    }
  }

  lemma {:induction false} NothingWaits(n: nat, f: nat)
    ensures TimesWaiting(map[], n, f) == 0
  {
    if n > 0 { NothingWaits(n - 1, f); }
  }

  /** A feedback asked for once on a new surface is, at any later time, in exactly one place: waiting in
      one slot, answered by one event, or taken back by its client. So it is answered at most once. */
  lemma FeedbackIsConserved(t: Tree, s: Surface, ops: seq<Op>, f: nat)
    requires Enabled(t, CreateSurface(s)) && EnabledRun(DoCreateSurface(t, s), ops)
    requires DestroySurface(s) !in ops
    ensures
      var end := Run(DoCreateSurface(t, s), ops);
      && s in end.surf
      && Unanswered(end, s, f) + TimesAnswered(end.surf[s].sent, f) + WithdrawnIn(ops, s, f) == AskedIn(ops, s, f)
      && (AskedIn(ops, s, f) == 1 ==> TimesAnswered(end.surf[s].sent, f) <= 1)
      && (AskedIn(ops, s, f) == 1 && TimesAnswered(end.surf[s].sent, f) == 1 ==> Unanswered(end, s, f) == 0)
  {
    var start := DoCreateSurface(t, s);
    NothingWaits(ID_LIMIT, f);
    RunLedger(start, ops, s, f);
  }

  // ---------------------------------------------------------------- the end of the surface

  /** Destroying a slot discards what it holds; here the entries that wait with an id below `n`. */
  function WaitingWords(m: map<nat, Feedbacks>, n: nat): seq<Event> {
    if n == 0 then []
    else WaitingWords(m, n - 1) + if n - 1 in m then DiscardEvents(m[n - 1].items) else []
  }

  function RecordWords(r: SurfaceRec): seq<Event> {
    DropEvents(r.pending.feedbacks) + DropEvents(r.current.feedbacks) + WaitingWords(r.waiting, ID_LIMIT)
  }

  /** The cache is the subsurface's, and goes with it. */
  function CacheWords(t: Tree, s: Surface): seq<Event>
    requires Valid(t) && s in t.surf
  {
    assert RoleOk(t.shape, s);
    if t.shape.role[s] == null then [] else DropEvents(t.sub[t.shape.role[s]].cached.feedbacks)
  }

  lemma {:induction false} WaitingAnswered(m: map<nat, Feedbacks>, n: nat, f: nat)
    ensures TimesAnswered(WaitingWords(m, n), f) == TimesWaiting(m, n, f)
  {
    if n > 0 {
      WaitingAnswered(m, n - 1, f);
      var last := if n - 1 in m then DiscardEvents(m[n - 1].items) else [];
      AnsweredAppend(WaitingWords(m, n - 1), last, f);
      if n - 1 in m { AnsweredItems(m[n - 1].items, f); }
    }
  }

  lemma RecordAnswered(r: SurfaceRec, f: nat)
    ensures TimesAnswered(RecordWords(r), f) == TimesInRecord(r, f)
  {
    hide TimesWaiting, WaitingWords, TimesIn;
    WaitingAnswered(r.waiting, ID_LIMIT, f);
    AnsweredDrop([], r.pending.feedbacks, f);
    assert [] + DropEvents(r.pending.feedbacks) == DropEvents(r.pending.feedbacks);
    AnsweredDrop(DropEvents(r.pending.feedbacks), r.current.feedbacks, f);
    AnsweredAppend(DropEvents(r.pending.feedbacks) + DropEvents(r.current.feedbacks),
                   WaitingWords(r.waiting, ID_LIMIT), f);
  }

  lemma CacheAnswered(t: Tree, s: Surface, f: nat)
    requires Valid(t) && s in t.surf
    ensures TimesAnswered(CacheWords(t, s), f) == TimesCached(t, s, f)
  {
    assert RoleOk(t.shape, s);
    if t.shape.role[s] != null {
      var slot := t.sub[t.shape.role[s]].cached.feedbacks;
      AnsweredDrop([], slot, f);
      assert [] + DropEvents(slot) == DropEvents(slot);
    }
  }

  /** The destruction of a surface leaves the cache to its subsurface, which has no surface from then on. */
  lemma CacheOutlivesSurface(t: Tree, s: Surface)
    requires Valid(t) && s in t.surf && t.shape.role[s] != null
    ensures
      var u, r := t.shape.role[s], DoDestroySurface(t, s);
      && u in t.sub && u in r.sub && r.shape.surface[u] == null && r.sub[u] == t.sub[u]
  {
    hide NowhereListed;
    assert RoleOk(t.shape, s);
    var u := t.shape.role[s];
    assert SubsurfaceOk(t.shape, u);
    var p := t.shape.parent[u];
    if p != null { assert RoleOk(t.shape, p) && p != s; }
  }

  /** Once the surface is destroyed, and the subsurface that keeps its cache, every feedback asked for
      was answered or taken back, each exactly once. */
  lemma EverythingIsAnswered(t: Tree, s: Surface, ops: seq<Op>, f: nat)
    requires Enabled(t, CreateSurface(s)) && EnabledRun(DoCreateSurface(t, s), ops)
    requires DestroySurface(s) !in ops
    ensures
      var end := Run(DoCreateSurface(t, s), ops);
      && s in end.surf
      && var words := end.surf[s].sent + RecordWords(end.surf[s]) + CacheWords(end, s);
      && TimesAnswered(words, f) + WithdrawnIn(ops, s, f) == AskedIn(ops, s, f)
      && (AskedIn(ops, s, f) == 1 && WithdrawnIn(ops, s, f) == 0 ==> TimesAnswered(words, f) == 1)
  {
    FeedbackIsConserved(t, s, ops, f);
    hide Enabled, EnabledRun, TimesAnswered, TimesInRecord, TimesCached, RecordWords, CacheWords;
    var end := Run(DoCreateSurface(t, s), ops);
    var r := end.surf[s];
    RecordAnswered(r, f);
    CacheAnswered(end, s, f);
    AnsweredAppend(r.sent, RecordWords(r), f);
    AnsweredAppend(r.sent + RecordWords(r), CacheWords(end, s), f);
  }
}
