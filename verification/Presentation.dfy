/** Which answer a presentation feedback gets, and under which id it waits for it: presented only by the
    call that says so, discarded by everything else that ends its wait. */
module Presentation {
  import opened Seqs
  import opened SurfaceTree
  import opened AtomicCommit
  import opened Feedback

  // ---------------------------------------------------------------- counting the two answers

  /** How often the events say that `f` was presented. */
  function TimesPresented(sent: seq<Event>, f: nat): nat {
    if sent == [] then 0
    else TimesPresented(sent[..|sent| - 1], f) + (if sent[|sent| - 1] == Presented(f) then 1 else 0)
  }

  function TimesDiscarded(sent: seq<Event>, f: nat): nat {
    if sent == [] then 0
    else TimesDiscarded(sent[..|sent| - 1], f) + (if sent[|sent| - 1] == Discarded(f) then 1 else 0)
  }

  lemma {:induction false} TwoAnswers(sent: seq<Event>, f: nat)
    ensures TimesAnswered(sent, f) == TimesPresented(sent, f) + TimesDiscarded(sent, f)
  {
    if sent != [] { TwoAnswers(sent[..|sent| - 1], f); }
  }

  lemma {:induction false} PresentedAppend(a: seq<Event>, b: seq<Event>, f: nat)
    ensures TimesPresented(a + b, f) == TimesPresented(a, f) + TimesPresented(b, f)
  {
    if b == [] {
      assert a + b == a;
    } else {
      assert (a + b)[..|a + b| - 1] == a + b[..|b| - 1];
      PresentedAppend(a, b[..|b| - 1], f);
    }
  }

  lemma {:induction false} PresentedItems(items: seq<nat>, f: nat)
    ensures TimesPresented(PresentEvents(items), f) == Times(items, f)
    ensures TimesPresented(DiscardEvents(items), f) == 0 && TimesPresented(DoneEvents(items), f) == 0
  {
    if items != [] {
      var n := |items| - 1;
      PresentedItems(items[..n], f);
      assert DiscardEvents(items)[..n] == DiscardEvents(items[..n]);
      assert PresentEvents(items)[..n] == PresentEvents(items[..n]);
      assert DoneEvents(items)[..n] == DoneEvents(items[..n]);
    }
  }

  lemma DropPresentsNothing(sent: seq<Event>, slot: Option<Feedbacks>, f: nat)
    ensures TimesPresented(sent + DropEvents(slot), f) == TimesPresented(sent, f)
  {
    PresentedAppend(sent, DropEvents(slot), f);
    if slot.Some? { PresentedItems(slot.value.items, f); }
  }

  // ---------------------------------------------------------------- one operation

  /** `f` is not presented on `s`, and no id is handed out or taken back there. */
  ghost predicate Silent(t: Tree, r: Tree, s: Surface, f: nat) {
    && s in t.surf && s in r.surf
    && TimesPresented(r.surf[s].sent, f) == TimesPresented(t.surf[s].sent, f)
    && r.surf[s].feedbackId == t.surf[s].feedbackId && r.surf[s].waiting.Keys == t.surf[s].waiting.Keys
  }

  /** The only step that presents, and how often it presents `f`. */
  function PresentedBy(t: Tree, op: Op, s: Surface, f: nat): nat
    requires Enabled(t, op) && s in t.surf
  {
    if op.AnswerPresentation? && op.s == s && op.presented then Times(t.surf[s].waiting[op.id].items, f) else 0
  }

  /** The only step that hands out an id. */
  predicate Locks(t: Tree, op: Op, s: Surface)
    requires Enabled(t, op) && s in t.surf
  {
    op.LockPresentation? && op.s == s && CanLock(t.surf[s])
  }

  lemma UpdateIsSilent(t: Tree, r: Tree, x: Surface, from: Source, s: Surface, f: nat)
    requires Updated(t, r, x, from) && s in t.surf
    ensures Silent(t, r, s, f)
  {
    hide TimesPresented, Patched;
    assert r.surf[s] == Expected(t, r, x, from, s);
    DropPresentsNothing(t.surf[s].sent, t.surf[s].current.feedbacks, f);
  }

  lemma CommitIsSilent(t: Tree, x: Surface, s: Surface, f: nat)
    requires Valid(t) && x in t.surf && s in t.surf
    ensures Silent(t, DoCommit(t, x), s, f)
  {
    hide TimesPresented;
    if SyncedRole(t.shape, x) {
      SourceIsOk(t, x, FromCached);
      DropPresentsNothing(t.surf[x].sent, t.sub[t.shape.role[x]].cached.feedbacks, f);
    } else {
      CommitIsAtomic(t, x);
      hide DoCommit;
      UpdateIsSilent(t, DoCommit(t, x), x, FromPending, s, f);
    }
  }

  lemma ShownIsSilent(t: Tree, u: Subsurface, s: Surface, f: nat)
    requires Valid(t) && u in t.sub && t.shape.parent[u] != null && s in t.surf
    ensures Silent(t, Shown(t, u), s, f)
  {
    hide TimesPresented;
    assert SubsurfaceOk(t.shape, u);
  }

  lemma SetModeIsSilent(t: Tree, u: Subsurface, m: Mode, s: Surface, f: nat)
    requires Enabled(t, SetMode(u, m)) && s in t.surf
    ensures Silent(t, DoSetMode(t, u, m), s, f)
  {
    hide TimesPresented, DoSetMode, Shown;
    FlushIsAtomic(t, u, m);
    assert SubsurfaceOk(t.shape, u);
    if Flushes(t, u, m) {
      ShownIsSilent(t, u, s, f);
      UpdateIsSilent(Shown(t, u), DoSetMode(t, u, m), t.shape.surface[u], FromCached, s, f);
    }
  }

  lemma RenderIsSilent(t: Tree, x: Surface, s: Surface, f: nat)
    requires Valid(t) && x in t.surf && s in t.surf
    ensures Silent(t, Render(t, x), s, f)
    decreases t.shape.bound - (if x in t.shape.depth then t.shape.depth[x] else 0), 1, 0
  {
    hide TimesPresented;
    SourceIsOk(t, x, FromPending);
    DrainIsSilent(t.surf[x], f);
    RenderAllIsSilent(PutSurface(t, x, Drained(t.surf[x])), x, t.surf[x].current.children, s, f);
  }

  lemma DrainIsSilent(a: SurfaceRec, f: nat)
    ensures TimesPresented(Drained(a).sent, f) == TimesPresented(a.sent, f)
  {
    PresentedItems(a.current.callbacks, f);
    PresentedAppend(a.sent, DoneEvents(a.current.callbacks), f);
  }

  lemma {:induction false} RenderAllIsSilent(t: Tree, p: Surface, list: seq<Subsurface>, s: Surface, f: nat)
    requires Valid(t) && p in t.surf && ChildrenOk(t.shape, p, list) && s in t.surf
    ensures Silent(t, RenderAll(t, p, list), s, f)
    decreases t.shape.bound - (if p in t.shape.depth then t.shape.depth[p] else 0), 0, |list|
  {
    hide TimesPresented;
    if list != [] {
      assert SubsurfaceOk(t.shape, list[0]);
      RenderIsSilent(t, t.shape.surface[list[0]], s, f);
      RenderAllIsSilent(Render(t, t.shape.surface[list[0]]), p, list[1..], s, f);
    }
  }

  /** Requests, restacking, positions and buffers send nothing. */
  lemma RequestIsSilent(t: Tree, op: Op, s: Surface, f: nat)
    requires Enabled(t, op) && s in t.surf
    requires op.StateRequest? || op.SetPosition? || op.Place? || op.BufferGone? || op.FeedbackGone? || op.CreateSurface?
    ensures Silent(t, Step(t, op), s, f)
  {
    hide TimesPresented, DoPlace, DoBufferGone, DoFeedbackGone, Requested, Valid, Held;
    match op {
      case Place(u, sibling, dir) => PlaceIsSilent(t, u, sibling, dir, s, f);
      case BufferGone(x, b) => BufferGoneIsSilent(t, x, b, s, f);
      case FeedbackGone(x, place, fb) => FeedbackGoneIsSilent(t, x, place, fb, s, f);
      case _ =>
    }
  }

  lemma PlaceIsSilent(t: Tree, u: Subsurface, sibling: Surface, dir: Direction, s: Surface, f: nat)
    requires Enabled(t, Place(u, sibling, dir)) && s in t.surf
    ensures Silent(t, DoPlace(t, u, sibling, dir), s, f)
  {
    hide TimesPresented, Restacked;
    assert SubsurfaceOk(t.shape, u);
  }

  lemma BufferGoneIsSilent(t: Tree, x: Surface, b: Buffer, s: Surface, f: nat)
    requires Valid(t) && x in t.surf && s in t.surf
    ensures Silent(t, DoBufferGone(t, x, b), s, f)
  {
    hide TimesPresented;
  }

  lemma FeedbackGoneIsSilent(t: Tree, x: Surface, place: Place, fb: nat, s: Surface, f: nat)
    requires Valid(t) && x in t.surf && fb in Held(t, x, place) && s in t.surf
    ensures Silent(t, DoFeedbackGone(t, x, place, fb), s, f)
  {
    hide TimesPresented, Dropped;
  }

  lemma CreateSubsurfaceIsSilent(t: Tree, u: Subsurface, x: Surface, p: Surface, s: Surface, f: nat)
    requires Enabled(t, CreateSubsurface(u, x, p)) && s in t.surf
    ensures Silent(t, DoCreateSubsurface(t, u, x, p), s, f)
  {
    JoinedIsReady(t, u, x, p);
    hide TimesPresented, Attached, Under, Valid;
    assert Joined(t, u, x, p).surf == t.surf;
    hide Joined;
    AddChildIsSilent(Joined(t, u, x, p), p, u, s, f);
  }

  lemma AddChildIsSilent(t: Tree, p: Surface, u: Subsurface, s: Surface, f: nat)
    requires Valid(t) && p in t.surf && u in t.sub && s in t.surf
    requires t.shape.parent[u] == p && t.shape.surface[u] != null
    requires u !in t.surf[p].pending.children && u !in CachedChildren(t, p)
    ensures Silent(t, ChildAdded(t, p, u), s, f)
  {
    hide TimesPresented;
  }

  lemma DetachIsSilent(t: Tree, u: Subsurface, s: Surface, f: nat)
    requires Valid(t) && u in t.sub && s in t.surf
    ensures Silent(t, Detach(t, u), s, f) && u in Detach(t, u).sub
  {
    hide TimesPresented, Without, NowhereListed;
    assert SubsurfaceOk(t.shape, u);
  }

  lemma DestroySurfaceIsSilent(t: Tree, x: Surface, s: Surface, f: nat)
    requires Valid(t) && x in t.surf && s in t.surf && s != x
    ensures Silent(t, DoDestroySurface(t, x), s, f)
  {
    hide TimesPresented, Detach, NowhereListed, Buried;
    assert RoleOk(t.shape, x);
    if t.shape.role[x] != null { DetachIsSilent(t, t.shape.role[x], s, f); }
  }

  /** The cache of a destroyed subsurface is discarded. */
  lemma DestroySubsurfaceIsSilent(t: Tree, u: Subsurface, s: Surface, f: nat)
    requires Valid(t) && u in t.sub && s in t.surf
    ensures Silent(t, DoDestroySubsurface(t, u), s, f)
  {
    hide TimesPresented, Detach, DropCache, Forget, NowhereListed, DropEvents;
    DetachIsSilent(t, u, s, f);
    var d := Detach(t, u);
    DropCacheIs(d, u);
    DropPresentsNothing(d.surf[s].sent, d.sub[u].cached.feedbacks, f);
    ForgetIs(DropCache(d, u), u);
  }

  /** A removed output discards what was locked to it. */
  lemma OutputGoneIsSilent(t: Tree, x: Surface, id: nat, s: Surface, f: nat)
    requires Enabled(t, OutputGone(x, id)) && s in t.surf
    ensures Silent(t, DoOutputGone(t, x, id), s, f)
  {
    hide TimesPresented;
    DropPresentsNothing(t.surf[x].sent, Some(t.surf[x].waiting[id]), f);
  }

  /** What still waits under the id that a lock reuses is discarded. */
  lemma LockPresentsNothing(t: Tree, x: Surface, output: nat, s: Surface, f: nat)
    requires Valid(t) && x in t.surf && s in t.surf
    ensures
      var r := DoLock(t, x, output);
      && TimesPresented(r.surf[s].sent, f) == TimesPresented(t.surf[s].sent, f)
      && t.surf[s].feedbackId < ID_LIMIT
      && (if s == x && CanLock(t.surf[s])
          then r.surf[s].feedbackId == NextId(t.surf[s].feedbackId)
               && r.surf[s].waiting.Keys == t.surf[s].waiting.Keys + {NextId(t.surf[s].feedbackId)}
          else r.surf[s].feedbackId == t.surf[s].feedbackId && r.surf[s].waiting.Keys == t.surf[s].waiting.Keys)
  {
    hide TimesPresented;
    SourceIsOk(t, s, FromPending);
    SourceIsOk(t, x, FromPending);
    DropPresentsNothing(t.surf[x].sent, Waiting(t.surf[x], NextId(t.surf[x].feedbackId)), f);
  }

  lemma AnswerPresents(t: Tree, x: Surface, id: nat, presented: bool, s: Surface, f: nat)
    requires Valid(t) && x in t.surf && s in t.surf && id in t.surf[x].waiting
    ensures
      var r := DoAnswer(t, x, id, presented);
      && TimesPresented(r.surf[s].sent, f) == TimesPresented(t.surf[s].sent, f)
           + (if s == x && presented then Times(t.surf[x].waiting[id].items, f) else 0)
      && r.surf[s].feedbackId == t.surf[s].feedbackId
      && r.surf[s].waiting.Keys == t.surf[s].waiting.Keys - (if s == x then {id} else {})
  {
    hide TimesPresented, Times;
    var items := t.surf[x].waiting[id].items;
    PresentedItems(items, f);
    PresentedAppend(t.surf[x].sent, PresentEvents(items), f);
    PresentedAppend(t.surf[x].sent, DiscardEvents(items), f);
  }

  // ---------------------------------------------------------------- every operation

  /** The ids for which an answer is still expected. */
  function OpenIds(t: Tree, op: Op, s: Surface): set<nat>
    requires Enabled(t, op) && s in t.surf && t.surf[s].feedbackId < ID_LIMIT
  {
    if Locks(t, op, s) then t.surf[s].waiting.Keys + {NextId(t.surf[s].feedbackId)}
    else if op.AnswerPresentation? && op.s == s then t.surf[s].waiting.Keys - {op.id}
    else t.surf[s].waiting.Keys
  }

  /** A step presents `f` exactly when it is the call that presents the entry `f` waits in, hands out an id
      exactly when it locks, and takes one back exactly when that is answered: a removed output does not. */
  ghost predicate Answered(t: Tree, op: Op, s: Surface, f: nat)
    requires Enabled(t, op) && s in t.surf
  {
    && s in Step(t, op).surf && t.surf[s].feedbackId < ID_LIMIT
    && TimesPresented(Step(t, op).surf[s].sent, f) == TimesPresented(t.surf[s].sent, f) + PresentedBy(t, op, s, f)
    && Step(t, op).surf[s].feedbackId
       == (if Locks(t, op, s) then NextId(t.surf[s].feedbackId) else t.surf[s].feedbackId)
    && Step(t, op).surf[s].waiting.Keys == OpenIds(t, op, s)
  }

  lemma CounterIsBelowLimit(t: Tree, s: Surface)
    requires Valid(t) && s in t.surf
    ensures t.surf[s].feedbackId < ID_LIMIT
  {
    SourceIsOk(t, s, FromPending);
  }

  lemma StepAnswers(t: Tree, op: Op, s: Surface, f: nat)
    requires Enabled(t, op) && s in t.surf && op != DestroySurface(s)
    ensures Answered(t, op, s, f)
  {
    CounterIsBelowLimit(t, s);
    if op.StateRequest? || op.SetPosition? || op.Place? || op.BufferGone? || op.FeedbackGone? || op.CreateSurface? {
      hide Step;
      RequestIsSilent(t, op, s, f);
    } else if op.CommitSurface? || op.SetMode? || op.FrameRendered? {
      hide Step;
      TreeAnswers(t, op, s, f);
    } else if op.OutputGone? || op.LockPresentation? || op.AnswerPresentation? {
      hide Step;
      FeedbackAnswers(t, op, s, f);
    } else {
      hide Step;
      ShapeAnswers(t, op, s, f);
    }
  }

  lemma TreeAnswers(t: Tree, op: Op, s: Surface, f: nat)
    requires Enabled(t, op) && s in t.surf && t.surf[s].feedbackId < ID_LIMIT
    requires op.CommitSurface? || op.SetMode? || op.FrameRendered?
    ensures Answered(t, op, s, f)
  {
    hide TimesPresented, Times, DoCommit, DoSetMode, Render;
    match op {
      case CommitSurface(x) => CommitIsSilent(t, x, s, f);
      case SetMode(u, m) => SetModeIsSilent(t, u, m, s, f);
      case FrameRendered(x) => RenderIsSilent(t, x, s, f);
    }
  }

  lemma FeedbackAnswers(t: Tree, op: Op, s: Surface, f: nat)
    requires Enabled(t, op) && s in t.surf && t.surf[s].feedbackId < ID_LIMIT
    requires op.OutputGone? || op.LockPresentation? || op.AnswerPresentation?
    ensures Answered(t, op, s, f)
  {
    hide TimesPresented, Times, DoLock, DoAnswer, DoOutputGone, CanLock, NextId;
    match op {
      case OutputGone(x, id) => OutputGoneIsSilent(t, x, id, s, f);
      case LockPresentation(x, output) => LockPresentsNothing(t, x, output, s, f);
      case AnswerPresentation(x, id, presented) => AnswerPresents(t, x, id, presented, s, f);
    }
  }

  lemma ShapeAnswers(t: Tree, op: Op, s: Surface, f: nat)
    requires Enabled(t, op) && s in t.surf && op != DestroySurface(s) && t.surf[s].feedbackId < ID_LIMIT
    requires op.CreateSubsurface? || op.DestroySurface? || op.DestroySubsurface?
    ensures Answered(t, op, s, f)
  {
    hide TimesPresented, Times, DoCreateSubsurface, DoDestroySurface, DoDestroySubsurface, Valid, Under;
    match op {
      case CreateSubsurface(u, x, p) => CreateSubsurfaceIsSilent(t, u, x, p, s, f);
      case DestroySurface(x) => DestroySurfaceIsSilent(t, x, s, f);
      case DestroySubsurface(u) => DestroySubsurfaceIsSilent(t, u, s, f);
    }
  }

  // ---------------------------------------------------------------- runs

  function PresentedIn(t: Tree, ops: seq<Op>, s: Surface, f: nat): nat
    requires Valid(t) && EnabledRun(t, ops) && s in t.surf && DestroySurface(s) !in ops
    decreases |ops|
  {
    if ops == [] then 0
    else
      StepAnswers(t, ops[0], s, f);
      PresentedBy(t, ops[0], s, f) + PresentedIn(Step(t, ops[0]), ops[1..], s, f)
  }

  function LocksIn(t: Tree, ops: seq<Op>, s: Surface): nat
    requires Valid(t) && EnabledRun(t, ops) && s in t.surf && DestroySurface(s) !in ops
    decreases |ops|
  {
    if ops == [] then 0
    else
      StepAnswers(t, ops[0], s, 0);
      (if Locks(t, ops[0], s) then 1 else 0) + LocksIn(Step(t, ops[0]), ops[1..], s)
  }

  /** The id that the `n`-th lock of a surface gets: the counter runs through 1 to 2^32 - 1. */
  function IdOf(n: nat): nat {
    if n == 0 then 0 else (n - 1) % (ID_LIMIT - 1) + 1
  }

  lemma NextIdOf(n: nat)
    ensures IdOf(n) < ID_LIMIT && NextId(IdOf(n)) == IdOf(n + 1)
  {
  }

  /** Two locks share an id if and only if a multiple of 2^32 - 1 locks lies between them. */
  lemma IdsAreSharedIff(m: nat, n: nat)
    requires 0 < m <= n
    ensures IdOf(m) > 0
    ensures IdOf(m) == IdOf(n) <==> (n - m) % (ID_LIMIT - 1) == 0
  {
  }

  /** Over every run: `f` is told to be presented exactly as often as a call presented an entry with it. */
  lemma {:induction false} RunPresents(t: Tree, ops: seq<Op>, s: Surface, f: nat)
    requires Valid(t) && EnabledRun(t, ops) && s in t.surf && DestroySurface(s) !in ops
    ensures s in Run(t, ops).surf
    ensures TimesPresented(Run(t, ops).surf[s].sent, f) == TimesPresented(t.surf[s].sent, f) + PresentedIn(t, ops, s, f)
    decreases |ops|
  {
    hide Step, Enabled, TimesPresented, PresentedBy, Valid, Locks;
    if ops != [] {
      StepAnswers(t, ops[0], s, f);
      RunPresents(Step(t, ops[0]), ops[1..], s, f);
    }
  }

  /** And the ids count the locks. */
  lemma {:induction false} RunLocks(t: Tree, ops: seq<Op>, s: Surface, n: nat)
    requires Valid(t) && EnabledRun(t, ops) && s in t.surf && DestroySurface(s) !in ops
    requires t.surf[s].feedbackId == IdOf(n)
    ensures s in Run(t, ops).surf && Run(t, ops).surf[s].feedbackId == IdOf(n + LocksIn(t, ops, s))
    decreases |ops|
  {
    hide Step, Enabled, TimesPresented, PresentedBy, Valid, Locks, IdOf, NextId;
    if ops != [] {
      StepAnswers(t, ops[0], s, 0);
      NextIdOf(n);
      RunLocks(Step(t, ops[0]), ops[1..], s, if Locks(t, ops[0], s) then n + 1 else n);
    }
  }

  /** From the creation of a surface on: presented is what the compositor presented. */
  lemma NewSurfacePresents(t: Tree, s: Surface, ops: seq<Op>, f: nat)
    requires Valid(t) && s !in t.surf && EnabledRun(DoCreateSurface(t, s), ops) && DestroySurface(s) !in ops
    ensures
      var start := DoCreateSurface(t, s);
      && s in Run(start, ops).surf
      && TimesPresented(Run(start, ops).surf[s].sent, f) == PresentedIn(start, ops, s, f)
  {
    NewSurfaceIsSilent(t, s);
    hide DoCreateSurface, Enabled, EnabledRun, Run, PresentedIn, Valid;
    RunPresents(DoCreateSurface(t, s), ops, s, f);
  }

  /** The `n`-th lock of a surface got the `n`-th id. */
  lemma NewSurfaceIds(t: Tree, s: Surface, ops: seq<Op>)
    requires Valid(t) && s !in t.surf && EnabledRun(DoCreateSurface(t, s), ops) && DestroySurface(s) !in ops
    ensures
      var start := DoCreateSurface(t, s);
      s in Run(start, ops).surf && Run(start, ops).surf[s].feedbackId == IdOf(LocksIn(start, ops, s))
  {
    NewSurfaceIsSilent(t, s);
    hide DoCreateSurface, Enabled, EnabledRun, Run, LocksIn, IdOf, Valid;
    RunLocks(DoCreateSurface(t, s), ops, s, 0);
  }

  /** Whatever else ends the wait of a feedback, but its client, answers it discarded: an overwritten
      cache, a removed output, an id that is used again, a newer content, a destroyed role. */
  lemma OtherAnswersDiscard(t: Tree, s: Surface, ops: seq<Op>, f: nat)
    requires Valid(t) && s !in t.surf && EnabledRun(DoCreateSurface(t, s), ops) && DestroySurface(s) !in ops
    ensures
      var start := DoCreateSurface(t, s);
      && s in Run(start, ops).surf
      && TimesDiscarded(Run(start, ops).surf[s].sent, f) + PresentedIn(start, ops, s, f)
         + Unanswered(Run(start, ops), s, f) + WithdrawnIn(ops, s, f) == AskedIn(ops, s, f)
  {
    assert Enabled(t, CreateSurface(s));
    hide DoCreateSurface, Unanswered, Enabled, EnabledRun, Run, PresentedIn, Valid, TimesPresented, TimesAnswered,
         AskedIn, WithdrawnIn, TimesDiscarded;
    FeedbackIsConserved(t, s, ops, f);
    NewSurfacePresents(t, s, ops, f);
    TwoAnswers(Run(DoCreateSurface(t, s), ops).surf[s].sent, f);
  }

  lemma NewSurfaceIsSilent(t: Tree, s: Surface)
    requires Valid(t) && s !in t.surf
    ensures
      var start := DoCreateSurface(t, s);
      s in start.surf && start.surf[s].feedbackId == IdOf(0) && start.surf[s].sent == []
  {
  }

  /** What is answered when the surface and its subsurface go away is discarded. */
  lemma LastWordsDiscard(t: Tree, s: Surface, f: nat)
    requires Valid(t) && s in t.surf
    ensures TimesPresented(RecordWords(t.surf[s]) + CacheWords(t, s), f) == 0
  {
    var r := t.surf[s];
    assert RoleOk(t.shape, s);
    hide WaitingWords, DropEvents;
    DropPresentsNothing([], r.pending.feedbacks, f);
    assert [] + DropEvents(r.pending.feedbacks) == DropEvents(r.pending.feedbacks);
    DropPresentsNothing(DropEvents(r.pending.feedbacks), r.current.feedbacks, f);
    WaitingPresentsNothing(r.waiting, ID_LIMIT, f);
    PresentedAppend(DropEvents(r.pending.feedbacks) + DropEvents(r.current.feedbacks),
                    WaitingWords(r.waiting, ID_LIMIT), f);
    PresentedAppend(RecordWords(r), CacheWords(t, s), f);
    if t.shape.role[s] != null {
      var slot := t.sub[t.shape.role[s]].cached.feedbacks;
      DropPresentsNothing([], slot, f);
      assert [] + DropEvents(slot) == DropEvents(slot);
    }
  }

  lemma {:induction false} WaitingPresentsNothing(m: map<nat, Feedbacks>, n: nat, f: nat)
    ensures TimesPresented(WaitingWords(m, n), f) == 0
  {
    if n > 0 {
      WaitingPresentsNothing(m, n - 1, f);
      var last := if n - 1 in m then DiscardEvents(m[n - 1].items) else [];
      PresentedAppend(WaitingWords(m, n - 1), last, f);
      if n - 1 in m { PresentedItems(m[n - 1].items, f); }
    }
  }

  /** A lock moves all feedbacks of the shown content, in their order, to its id and its output. */
  lemma LockedUnderItsId(t: Tree, s: Surface, output: nat)
    requires Valid(t) && s in t.surf && CanLock(t.surf[s])
    ensures t.surf[s].feedbackId < ID_LIMIT
    ensures
      var r, id := DoLock(t, s, output), NextId(t.surf[s].feedbackId);
      && r.surf[s].feedbackId == id && id in r.surf[s].waiting
      && Held(r, s, InWaiting(id)) == Held(t, s, InCurrent) && Held(r, s, InCurrent) == []
      && r.surf[s].waiting[id].output == Some(output)
      && forall i :: i != id ==> Held(r, s, InWaiting(i)) == Held(t, s, InWaiting(i))
  {
    SourceIsOk(t, s, FromPending);
  }
}
