/** The selection of a seat against the operations made of it: which source is the selection, which one
    each device set, and what each step tells each device. */
module SelectionHistory {
  import opened Seqs
  import opened Devices
  import opened SelectionFocus
  import opened SelectionCancels

  // ---------------------------------------------------------------- the source

  /** What the operations so far leave: the keyboard focus, the selection, what each device set, and the
      devices that hear of the selection. */
  datatype Course = Course(
    focus: Option<Surface>,
    source: Option<Source>,
    chosen: map<Device, Option<Source>>,
    listed: set<Device>)

  const NO_COURSE := Course(None, None, map[], {})

  predicate InFocus(c: Course, d: Device) {
    c.focus.Some? && c.focus.value.client == d.client
  }

  /** A device in focus still has the source set. */
  ghost predicate FocusChose(c: Course, source: Source) {
    exists d :: d in c.chosen && c.chosen[d] == Some(source) && InFocus(c, d)
  }

  /** The devices that hear after the focus moves: none without a surface, the same ones when one of them
      is of the surface's client, and else all devices of that client. */
  ghost function ListedAfter(c: Course, surface: Option<Surface>): set<Device> {
    if surface == c.focus then c.listed
    else if surface.None? then {}
    else if exists d :: d in c.listed && d.client == surface.value.client then c.listed
    else set d | d in c.chosen && d.client == surface.value.client
  }

  /** A destroyed source is withdrawn by all who set it, and a withdrawal in focus clears the selection,
      whichever source it is. */
  ghost function Follow(c: Course, op: Op): Course {
    match op
    case Register(d) => c.(chosen := c.chosen[d := None], listed := if InFocus(c, d) then c.listed + {d} else c.listed)
    case DeviceGone(d) => c.(chosen := c.chosen - {d}, listed := c.listed - {d})
    case Focus(surface) => c.(focus := surface, listed := ListedAfter(c, surface))
    case SurfaceGone(surface) => if c.focus == Some(surface) then c.(focus := None) else c
    case Select(source) => c.(source := source)
    case DeviceSelect(d, source) =>
      if d in c.chosen && c.chosen[d] == source then c
      else c.(chosen := c.chosen[d := source], source := if InFocus(c, d) then source else c.source)
    case SourceGone(lost) =>
      Course(c.focus, if c.source == Some(lost) || FocusChose(c, lost) then None else c.source,
             map d | d in c.chosen :: if c.chosen[d] == Some(lost) then None else c.chosen[d], c.listed)
  }

  ghost function FollowAll(c: Course, ops: seq<Op>): Course
    decreases |ops|
  {
    if ops == [] then c else FollowAll(Follow(c, ops[0]), ops[1..])
  }

  ghost function CourseOf(p: Pool): Course {
    Course(p.keyboardFocus, p.source, map d | d in p.desks :: p.desks[d].selection, set d | d in p.focus)
  }

  /** What the withdrawals from a list of devices leave. */
  lemma {:induction false} WithdrawnLeaves(p: Pool, list: seq<Device>, lost: Source, x: Device)
    requires NoDup(list) && p.source != Some(lost) && (forall d :: d in list ==> d in p.desks) && x in p.desks
    ensures
      var q := Withdrawn(p, list, lost);
      && q.keyboardFocus == p.keyboardFocus && q.desks.Keys == p.desks.Keys
      && q.source == (if FocusHolds(p, list, lost) then None else p.source)
      && q.desks[x].selection == if x in list && p.desks[x].selection == Some(lost) then None else p.desks[x].selection
    decreases |list|
  {
    if list != [] {
      var d, rest := list[0], list[1..];
      assert list == [d] + rest;
      NoDupCons(d, rest);
      FocusSplit(p, d, rest, lost);
      if Has(p, d, lost) {
        var q := DoDeviceSelect(p, d, None);
        forall y | y in p.desks
          ensures y in q.desks && q.desks[y].selection == (if y == d then None else p.desks[y].selection)
        {
          WithdrawOne(p, d, y);
        }
        WithdrawOne(p, d, d);
        hide DoDeviceSelect;
        WithdrawnLeaves(q, rest, lost, x);
        assert FocusHolds(q, rest, lost) <==> FocusHolds(p, rest, lost);
      } else {
        WithdrawnLeaves(p, rest, lost, x);
      }
    }
  }

  lemma GoneSelections(p: Pool, lost: Source)
    requires Valid(p)
    ensures CourseOf(DoSourceGone(p, lost)).chosen == Follow(CourseOf(p), SourceGone(lost)).chosen
  {
    hide DeskOk, Subsequence, NoDup, Withdrawn;
    var a, q := Dropped(p, lost), DoSourceGone(p, lost);
    DroppedSelections(p, lost);
    assert a.desks.Keys == p.desks.Keys && forall d :: d in p.desks ==> d in p.devices;
    hide Valid, Dropped, Sent;
    forall x | x in p.desks
      ensures x in q.desks && q.desks[x].selection == (if p.desks[x].selection == Some(lost) then None
                                                      else p.desks[x].selection)
    {
      WithdrawnLeaves(a, p.devices, lost, x);
    }
    assert q.desks.Keys == p.desks.Keys;
  }

  lemma GoneList(p: Pool, lost: Source)
    requires Valid(p)
    ensures DoSourceGone(p, lost).focus == p.focus
  {
    DroppedKeeps(p, lost);
    hide Valid, Withdrawn;
    WithdrawnKeeps(Dropped(p, lost), p.devices, lost);
  }

  lemma GoneIsFollowed(p: Pool, lost: Source)
    requires Valid(p)
    ensures CourseOf(DoSourceGone(p, lost)) == Follow(CourseOf(p), SourceGone(lost))
  {
    GoneSelections(p, lost);
    GoneSource(p, lost);
    GoneList(p, lost);
    hide Valid, DoSourceGone, FocusChose;
  }

  lemma GoneSource(p: Pool, lost: Source)
    requires Valid(p)
    ensures
      var q := DoSourceGone(p, lost);
      && q.keyboardFocus == p.keyboardFocus && q.desks.Keys == p.desks.Keys
      && q.source == Follow(CourseOf(p), SourceGone(lost)).source
  {
    var a := Dropped(p, lost);
    DroppedSelections(p, lost);
    assert a.desks.Keys == p.desks.Keys && forall d :: d in p.desks <==> d in p.devices;
    hide Valid, Dropped;
    if p.devices == [] {
      assert !FocusHolds(a, p.devices, lost);
    } else {
      assert p.devices[0] in p.devices;
      WithdrawnLeaves(a, p.devices, lost, p.devices[0]);
    }
    assert FocusHolds(a, p.devices, lost) <==> FocusChose(CourseOf(p), lost) by { SameHolding(p, a, lost); }
  }

  lemma SameHolding(p: Pool, a: Pool, lost: Source)
    requires a.keyboardFocus == p.keyboardFocus && a.desks.Keys == p.desks.Keys
    requires forall d :: d in p.desks <==> d in p.devices
    requires forall d :: d in p.devices ==> d in a.desks && a.desks[d].selection == p.desks[d].selection
    ensures FocusHolds(a, p.devices, lost) <==> FocusChose(CourseOf(p), lost)
  {
    var c := CourseOf(p);
    forall d | d in p.devices
      ensures Has(a, d, lost) && HasFocus(a, d) <==> d in c.chosen && c.chosen[d] == Some(lost) && InFocus(c, d)
    {
    }
  }

  lemma RegisterIsFollowed(p: Pool, d: Device)
    ensures CourseOf(DoRegister(p, d)) == Follow(CourseOf(p), Register(d))
  {
    var q, c := CourseOf(DoRegister(p, d)), Follow(CourseOf(p), Register(d));
    assert q.chosen == c.chosen;
    assert q.listed == c.listed;
  }

  lemma DeviceGoneIsFollowed(p: Pool, d: Device)
    requires Valid(p)
    ensures CourseOf(DoDeviceGone(p, d)) == Follow(CourseOf(p), DeviceGone(d))
  {
    RemoveOneLeaves(p.focus, d);
    hide RemoveOne, Valid;
    var q, c := CourseOf(DoDeviceGone(p, d)), Follow(CourseOf(p), DeviceGone(d));
    assert q.chosen == c.chosen;
    assert q.listed == c.listed;
  }

  lemma FocusIsFollowed(p: Pool, surface: Option<Surface>)
    requires Valid(p)
    ensures CourseOf(DoFocus(p, surface)) == Follow(CourseOf(p), Focus(surface))
  {
    ListIsFollowed(p, surface);
    hide Valid, Filter, ListedAfter;
    var q, c := DoFocus(p, surface), CourseOf(p);
    assert CourseOf(q).chosen == c.chosen;
  }

  lemma ListIsFollowed(p: Pool, surface: Option<Surface>)
    requires Valid(p)
    ensures (set d | d in DoFocus(p, surface).focus) == ListedAfter(CourseOf(p), surface)
  {
    assert forall d :: d in p.devices <==> d in p.desks;
    assert p.focus != [] ==> p.focus[0] in p.focus && OneClient(p.focus, p.focus[0].client);
    hide Valid;
    var c := CourseOf(p);
    if surface.Some? {
      assert (exists d :: d in c.listed && d.client == surface.value.client)
        <==> p.focus != [] && p.focus[0].client == surface.value.client;
    }
  }

  lemma SurfaceGoneIsFollowed(p: Pool, surface: Surface)
    ensures CourseOf(DoSurfaceGone(p, surface)) == Follow(CourseOf(p), SurfaceGone(surface))
  {
    assert CourseOf(DoSurfaceGone(p, surface)).chosen == CourseOf(p).chosen;
  }

  lemma SelectIsFollowed(p: Pool, source: Option<Source>)
    ensures CourseOf(DoSelect(p, source)) == CourseOf(p).(source := source)
  {
    assert CourseOf(DoSelect(p, source)).chosen == CourseOf(p).chosen;
  }

  lemma DeviceSelectIsFollowed(p: Pool, d: Device, source: Option<Source>)
    requires d in p.desks
    ensures CourseOf(DoDeviceSelect(p, d, source)) == Follow(CourseOf(p), DeviceSelect(d, source))
  {
    var q := Chosen(p, d, source);
    assert CourseOf(q).chosen == CourseOf(p).chosen[d := source];
    SelectIsFollowed(q, source);
    hide DoSelect;
  }

  lemma StepIsFollowed(p: Pool, op: Op)
    requires Valid(p) && Enabled(p, op)
    ensures CourseOf(Step(p, op)) == Follow(CourseOf(p), op)
  {
    hide CourseOf, DoSelect, DoDeviceSelect, DoFocus, DoSurfaceGone, DoSourceGone, DoRegister, DoDeviceGone;
    match op {
      case SourceGone(lost) => GoneIsFollowed(p, lost);
      case Select(source) => SelectIsFollowed(p, source);
      case DeviceSelect(d, source) => DeviceSelectIsFollowed(p, d, source);
      case Focus(surface) => FocusIsFollowed(p, surface);
      case SurfaceGone(surface) => SurfaceGoneIsFollowed(p, surface);
      case Register(d) => RegisterIsFollowed(p, d);
      case DeviceGone(d) => DeviceGoneIsFollowed(p, d);
    }
  }

  lemma {:induction false} RunIsFollowed(p: Pool, ops: seq<Op>, q: Pool)
    requires Valid(p) && Run(p, ops) == Some(q)
    ensures CourseOf(q) == FollowAll(CourseOf(p), ops)
    decreases |ops|
  {
    if ops != [] {
      hide Step, Valid, Enabled, CourseOf, Follow;
      StepKeeps(p, ops[0]);
      StepIsFollowed(p, ops[0]);
      RunIsFollowed(Step(p, ops[0]), ops[1..], q);
    }
  }

  /** After any run, told by the operations alone: the selection, the keyboard focus and what every device
      set; and every device in the focus list knows that selection. */
  lemma DevicesKnowWhatWasSelected(ops: seq<Op>, q: Pool, d: Device)
    requires Run(Start(), ops) == Some(q)
    ensures
      var c := FollowAll(NO_COURSE, ops);
      && q.source == c.source && q.keyboardFocus == c.focus && q.desks.Keys == c.chosen.Keys
      && (d in q.desks ==> q.desks[d].selection == c.chosen[d])
      && (d in q.focus <==> d in c.listed)
      && (d in c.listed ==> d in q.desks && View(q.desks[d]) == c.source)
  {
    assert CourseOf(Start()) == NO_COURSE;
    RunIsFollowed(Start(), ops, q);
    SelectionViewAgrees(ops, q);
  }

  // ---------------------------------------------------------------- the events of a step

  /** The focus list is made anew for the client of another surface. */
  predicate TakesOver(p: Pool, op: Op) {
    && op.Focus? && op.surface.Some? && op.surface != p.keyboardFocus
    && (p.focus == [] || p.focus[0].client != op.surface.value.client)
  }

  /** What the step tells a device that was there before: a change of the selection goes to the list, and
      a client that takes over is told a selection that is set. */
  ghost function NewEvents(p: Pool, op: Op, d: Device): seq<Option<Source>> {
    var source := Follow(CourseOf(p), op).source;
    if source != p.source then (if d in p.focus then [source] else [])
    else if TakesOver(p, op) && d.client == op.surface.value.client && p.source.Some? then [p.source]
    else []
  }

  ghost predicate Hears(p: Pool, q: Pool, d: Device, events: seq<Option<Source>>) {
    d in p.desks && d in q.desks && q.desks[d].sent == p.desks[d].sent + events
  }

  lemma SelectTells(p: Pool, source: Option<Source>, d: Device)
    requires Valid(p) && d in p.desks
    ensures Hears(p, DoSelect(p, source), d, if source != p.source && d in p.focus then [source] else [])
  {
    hide Valid;
  }

  lemma DeviceSelectTells(p: Pool, e: Device, source: Option<Source>, d: Device)
    requires Valid(p) && e in p.devices && d in p.desks
    ensures
      var told := p.desks[e].selection != source && HasFocus(p, e) && source != p.source && d in p.focus;
      Hears(p, DoDeviceSelect(p, e, source), d, if told then [source] else [])
  {
    if p.desks[e].selection != source {
      ChosenKeeps(p, e, source);
      hide Valid, DoSelect;
      SelectTells(Chosen(p, e, source), source, d);
    }
  }

  /** The withdrawals of a destroyed source clear the selection once at most. */
  lemma {:induction false} WithdrawnTells(p: Pool, list: seq<Device>, lost: Source, d: Device)
    requires Valid(p) && p.source != Some(lost) && NoDup(list) && d in p.desks
    requires forall x :: x in list ==> x in p.devices
    ensures
      var told := p.source.Some? && FocusHolds(p, list, lost) && d in p.focus;
      Hears(p, Withdrawn(p, list, lost), d, if told then [None] else [])
    decreases |list|
  {
    if list != [] {
      var e, rest := list[0], list[1..];
      assert list == [e] + rest;
      NoDupCons(e, rest);
      FocusSplit(p, e, rest, lost);
      if Has(p, e, lost) {
        var q := DoDeviceSelect(p, e, None);
        WithdrawLeavesFocus(p, e, rest, lost);
        DeviceSelectTells(p, e, None, d);
        DeviceSelectKeeps(p, e, None);
        hide DoDeviceSelect, Valid, FocusHolds;
        WithdrawnTells(q, rest, lost, d);
      } else {
        hide Valid, FocusHolds;
        WithdrawnTells(p, rest, lost, d);
      }
    }
  }

  lemma WithdrawLeavesFocus(p: Pool, e: Device, rest: seq<Device>, lost: Source)
    requires Valid(p) && e in p.devices && e !in rest && Has(p, e, lost)
    requires forall x :: x in rest ==> x in p.devices
    ensures
      var q := DoDeviceSelect(p, e, None);
      && q.focus == p.focus && q.devices == p.devices
      && q.source == (if HasFocus(p, e) then None else p.source)
      && (FocusHolds(q, rest, lost) <==> FocusHolds(p, rest, lost))
  {
    hide DeskOk, NoDup, Subsequence;
    forall x | x in rest ensures Has(DoDeviceSelect(p, e, None), x, lost) <==> Has(p, x, lost) {
      WithdrawOne(p, e, x);
    }
  }

  lemma GoneTells(p: Pool, lost: Source, d: Device)
    requires Valid(p) && d in p.desks
    ensures Hears(p, DoSourceGone(p, lost), d, NewEvents(p, SourceGone(lost), d))
  {
    var a := Dropped(p, lost);
    DroppedKeeps(p, lost);
    DroppedSelections(p, lost);
    assert a.desks.Keys == p.desks.Keys && a.focus == p.focus && forall x :: x in p.desks <==> x in p.devices;
    SameHolding(p, a, lost);
    hide Valid, FocusHolds, FocusChose;
    WithdrawnTells(a, p.devices, lost, d);
  }

  lemma FocusTells(p: Pool, surface: Option<Surface>, d: Device)
    requires Valid(p) && d in p.desks
    ensures Hears(p, DoFocus(p, surface), d, NewEvents(p, Focus(surface), d))
  {
    assert d in p.devices;
    if surface.Some? {
      assert d in ForClient(p.devices, surface.value.client) <==> d.client == surface.value.client;
    }
    hide Valid, ForClient;
  }

  /** Every step tells every device exactly that. */
  lemma StepTells(p: Pool, op: Op, d: Device)
    requires Valid(p) && Enabled(p, op) && d in p.desks && op != DeviceGone(d)
    ensures Hears(p, Step(p, op), d, NewEvents(p, op, d))
  {
    match op {
      case SourceGone(lost) => GoneTells(p, lost, d);
      case Focus(surface) => FocusTells(p, surface, d);
      case Select(source) => SelectTells(p, source, d);
      case DeviceSelect(e, source) => DeviceSelectTells(p, e, source, d);
      case _ => OthersTell(p, op, d);
    }
  }

  lemma OthersTell(p: Pool, op: Op, d: Device)
    requires Valid(p) && Enabled(p, op) && d in p.desks && op != DeviceGone(d)
    requires op.Register? || op.DeviceGone? || op.SurfaceGone?
    ensures Hears(p, Step(p, op), d, NewEvents(p, op, d))
  {
    hide DeskOk, NoDup, Subsequence, RemoveOne;
  }

  lemma NewDeviceHears(p: Pool, d: Device)
    requires Valid(p) && d !in p.devices
    ensures d in Step(p, Register(d)).desks
    ensures Step(p, Register(d)).desks[d].sent == if HasFocus(p, d) && p.source.Some? then [p.source] else []
  {
  }
}
