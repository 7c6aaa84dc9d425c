/** The selection of a seat: the devices of the client in keyboard focus are told the current source.
    A client that reads only its own events, and forgets them when it loses the focus, must always know
    the source the pool has. */
module SelectionFocus {
  import opened Seqs
  import opened Devices

  // ---------------------------------------------------------------- values

  type Source = nat

  /** One device: the source its client set through it, the selection events it was sent (`None`
      clears the selection), and how many of them came before it last entered the focus list. */
  datatype Desk = Desk(selection: Option<Source>, sent: seq<Option<Source>>, since: nat)

  /** `keyboardFocus` is the focus surface of the seat's keyboard pool; `cancels` lists the cancel
      events, by the source they went to. */
  datatype Pool = Pool(
    keyboardFocus: Option<Surface>,
    source: Option<Source>,
    focus: seq<Device>,
    devices: seq<Device>,
    desks: map<Device, Desk>,
    cancels: seq<Source>)

  ghost function Start(): (p: Pool)
    ensures Valid(p) && Complete(p)
  {
    Pool(None, None, [], [], map[], [])
  }

  function OfClient(client: nat): Device -> bool {
    (d: Device) => d.client == client
  }

  /** `interfacesForSurface`. */
  function ForClient(devices: seq<Device>, client: nat): seq<Device> {
    Filter(devices, OfClient(client))
  }

  /** `has_keyboard_focus`. */
  ghost predicate HasFocus(p: Pool, d: Device) {
    p.keyboardFocus.Some? && p.keyboardFocus.value.client == d.client
  }

  function Listed(source: Option<Source>): seq<Source> {
    if source.Some? then [source.value] else []
  }

  // ---------------------------------------------------------------- operations

  ghost function Sent(desks: map<Device, Desk>, list: seq<Device>, source: Option<Source>): map<Device, Desk> {
    map d | d in desks :: if d in list then desks[d].(sent := desks[d].sent + [source]) else desks[d]
  }

  ghost function Entered(desks: map<Device, Desk>, list: seq<Device>): map<Device, Desk> {
    map d | d in desks :: if d in list then desks[d].(since := |desks[d].sent|) else desks[d]
  }

  ghost function DoRegister(p: Pool, d: Device): Pool {
    var q := p.(devices := p.devices + [d]);
    if HasFocus(p, d)
    then q.(focus := p.focus + [d],
            desks := p.desks[d := Desk(None, if p.source.Some? then [p.source] else [], 0)])
    else q.(desks := p.desks[d := Desk(None, [], 0)])
  }

  ghost function DoDeviceGone(p: Pool, d: Device): Pool {
    p.(devices := RemoveOne(p.devices, d), focus := RemoveOne(p.focus, d), desks := p.desks - {d})
  }

  ghost function DoSetFocused(p: Pool, surface: Option<Surface>): Pool {
    if surface.None? then p.(focus := [])
    else if p.focus != [] && p.focus[0].client == surface.value.client then p
    else
      var list := ForClient(p.devices, surface.value.client);
      var entered := Entered(p.desks, list);
      p.(focus := list, desks := if p.source.Some? then Sent(entered, list, p.source) else entered)
  }

  /** The seat moves the keyboard focus; the selection devices go first. */
  ghost function DoFocus(p: Pool, surface: Option<Surface>): Pool {
    if surface == p.keyboardFocus then p else DoSetFocused(p, surface).(keyboardFocus := surface)
  }

  /** A destroyed surface loses the keyboard focus; the selection devices are not told. */
  ghost function DoSurfaceGone(p: Pool, surface: Surface): Pool {
    if p.keyboardFocus == Some(surface) then p.(keyboardFocus := None) else p
  }

  ghost function DoSelect(p: Pool, source: Option<Source>): Pool {
    if p.source == source then p
    else p.(source := source, desks := Sent(p.desks, p.focus, source), cancels := p.cancels + Listed(p.source))
  }

  /** A client sets the selection through `d`. */
  ghost function DoDeviceSelect(p: Pool, d: Device, source: Option<Source>): Pool
    requires d in p.desks
  {
    var desk := p.desks[d];
    if desk.selection == source then p
    else
      var q := Chosen(p, d, source);
      if HasFocus(p, d) then DoSelect(q, source) else q
  }

  /** The device's own part: it cancels the source it had. */
  ghost function Chosen(p: Pool, d: Device, source: Option<Source>): Pool
    requires d in p.desks
  {
    var desk := p.desks[d];
    p.(cancels := p.cancels + Listed(desk.selection), desks := p.desks[d := desk.(selection := source)])
  }

  /** A source goes away: the pool drops it first, then every device that still has it. */
  ghost function DoSourceGone(p: Pool, source: Source): Pool
    requires forall d :: d in p.devices ==> d in p.desks
  {
    Withdrawn(Dropped(p, source), p.devices, source)
  }

  ghost function Dropped(p: Pool, source: Source): Pool {
    if p.source == Some(source) then p.(source := None, desks := Sent(p.desks, p.focus, None)) else p
  }

  ghost function Withdrawn(p: Pool, list: seq<Device>, source: Source): (q: Pool)
    requires forall d :: d in list ==> d in p.desks
    ensures q.desks.Keys == p.desks.Keys
    decreases |list|
  {
    if list == [] then p
    else if p.desks[list[0]].selection == Some(source)
    then Withdrawn(DoDeviceSelect(p, list[0], None), list[1..], source)
    else Withdrawn(p, list[1..], source)
  }

  // ---------------------------------------------------------------- what every run keeps

  /** What the client of a device knows since the device entered the focus list. */
  function View(desk: Desk): Option<Source> {
    if |desk.sent| <= desk.since then None else desk.sent[|desk.sent| - 1]
  }

  ghost predicate OneClient(list: seq<Device>, client: nat) {
    forall d :: d in list ==> d.client == client
  }

  ghost predicate DeskOk(p: Pool, d: Device) {
    && d in p.desks
    && p.desks[d].since <= |p.desks[d].sent|
    && (d in p.focus ==> View(p.desks[d]) == p.source)
  }

  ghost predicate Valid(p: Pool) {
    && NoDup(p.devices) && NoDup(p.focus)
    && p.desks.Keys == (set d | d in p.devices)
    && Subsequence(p.focus, p.devices)
    && (p.focus != [] ==> OneClient(p.focus, p.focus[0].client))
    && (p.keyboardFocus.Some? ==> OneClient(p.focus, p.keyboardFocus.value.client))
    && (forall d {:trigger DeskOk(p, d)} :: d in p.devices ==> DeskOk(p, d))
  }

  lemma {:induction false} SubsequenceIn<T>(a: seq<T>, b: seq<T>, x: T)
    requires Subsequence(a, b) && x in a
    ensures x in b
    decreases |b|
  {
    if a[0] == b[0] {
      if x != a[0] {
        assert a == [a[0]] + a[1..];
        SubsequenceIn(a[1..], b[1..], x);
      }
    } else {
      SubsequenceIn(a, b[1..], x);
    }
  }

  lemma FocusIsKnown(p: Pool)
    requires Valid(p)
    ensures forall d :: d in p.focus ==> d in p.devices
  {
    forall d | d in p.focus ensures d in p.devices { SubsequenceIn(p.focus, p.devices, d); }
  }

  lemma RegisterKeeps(p: Pool, d: Device)
    requires Valid(p) && d !in p.devices
    ensures Valid(DoRegister(p, d))
  {
    var q := DoRegister(p, d);
    FocusIsKnown(p);
    SubsequenceAppend(p.focus, p.devices, d);
    forall x | x in q.devices ensures DeskOk(q, x) {
      if x != d { assert DeskOk(p, x); }
    }
  }

  lemma DeviceGoneKeeps(p: Pool, d: Device)
    requires Valid(p) && d in p.devices
    ensures Valid(DoDeviceGone(p, d))
  {
    var q := DoDeviceGone(p, d);
    RemoveOneIsWithout(p.devices, d);
    RemoveOneIsWithout(p.focus, d);
    SubsequenceWithout(p.focus, p.devices, d);
    forall x | x in q.devices ensures DeskOk(q, x) { assert DeskOk(p, x); }
  }

  lemma FocusKeeps(p: Pool, surface: Option<Surface>)
    requires Valid(p)
    ensures Valid(DoFocus(p, surface))
  {
    var q := DoFocus(p, surface);
    FocusListIs(p, surface);
    assert forall d :: d in p.devices ==> d in p.desks && p.desks[d].since <= |p.desks[d].sent| by {
      forall d | d in p.devices ensures d in p.desks && p.desks[d].since <= |p.desks[d].sent| {
        assert DeskOk(p, d);
      }
    }
    hide Subsequence, Filter, ForClient, NoDup;
    forall x | x in q.devices ensures DeskOk(q, x) { assert DeskOk(p, x); }
  }

  lemma FocusListIs(p: Pool, surface: Option<Surface>)
    requires Valid(p)
    ensures
      var q := DoFocus(p, surface);
      && NoDup(q.focus) && Subsequence(q.focus, q.devices)
      && (q.focus != [] ==> OneClient(q.focus, q.focus[0].client))
      && (q.keyboardFocus.Some? ==> OneClient(q.focus, q.keyboardFocus.value.client))
  {
    hide DeskOk;
    var q := DoFocus(p, surface);
    if surface.Some? { FilterIsSubsequence(p.devices, OfClient(surface.value.client)); }
    hide Subsequence, Filter;
    if p.focus != [] { assert p.focus[0] in p.focus; }
    if q.focus != [] { assert q.focus[0] in q.focus; }
  }

  lemma SelectKeeps(p: Pool, source: Option<Source>)
    requires Valid(p)
    ensures Valid(DoSelect(p, source))
  {
    var q := DoSelect(p, source);
    forall x | x in q.devices ensures DeskOk(q, x) { assert DeskOk(p, x); }
  }

  lemma DeviceSelectKeeps(p: Pool, d: Device, source: Option<Source>)
    requires Valid(p) && d in p.devices
    ensures Valid(DoDeviceSelect(p, d, source))
  {
    ChosenKeeps(p, d, source);
    SelectKeeps(Chosen(p, d, source), source);
  }

  lemma ChosenKeeps(p: Pool, d: Device, source: Option<Source>)
    requires Valid(p) && d in p.devices
    ensures d in p.desks && Valid(Chosen(p, d, source))
  {
    var q := Chosen(p, d, source);
    forall x | x in q.devices ensures DeskOk(q, x) { assert DeskOk(p, x); }
  }

  lemma {:induction false} WithdrawnKeeps(p: Pool, list: seq<Device>, source: Source)
    requires Valid(p) && forall d :: d in list ==> d in p.devices
    ensures Valid(Withdrawn(p, list, source))
    ensures Withdrawn(p, list, source).focus == p.focus && Withdrawn(p, list, source).devices == p.devices
    ensures Withdrawn(p, list, source).keyboardFocus == p.keyboardFocus
    decreases |list|
  {
    if list != [] {
      hide Valid;
      if p.desks[list[0]].selection == Some(source) {
        DeviceSelectKeeps(p, list[0], None);
        WithdrawnKeeps(DoDeviceSelect(p, list[0], None), list[1..], source);
      } else {
        WithdrawnKeeps(p, list[1..], source);
      }
    }
  }

  lemma SourceGoneKeeps(p: Pool, source: Source)
    requires Valid(p)
    ensures Valid(DoSourceGone(p, source))
  {
    DroppedKeeps(p, source);
    WithdrawnKeeps(Dropped(p, source), p.devices, source);
  }

  lemma DroppedKeeps(p: Pool, source: Source)
    requires Valid(p)
    ensures Valid(Dropped(p, source))
  {
    var q := Dropped(p, source);
    forall x | x in q.devices ensures DeskOk(q, x) { assert DeskOk(p, x); }
  }

  // ---------------------------------------------------------------- runs

  datatype Op =
    | Register(device: Device)
    | DeviceGone(device: Device)
    | Focus(surface: Option<Surface>)
    | SurfaceGone(gone: Surface)
    | Select(source: Option<Source>)
    | DeviceSelect(device: Device, source: Option<Source>)
    | SourceGone(lost: Source)

  ghost predicate Enabled(p: Pool, op: Op) {
    match op
    case Register(d) => d !in p.devices
    case DeviceGone(d) => d in p.devices
    case DeviceSelect(d, _) => d in p.devices
    case _ => true
  }

  ghost function Step(p: Pool, op: Op): (q: Pool)
    requires Valid(p) && Enabled(p, op)
  {
    match op
    case Register(d) => DoRegister(p, d)
    case DeviceGone(d) => DoDeviceGone(p, d)
    case Focus(surface) => DoFocus(p, surface)
    case SurfaceGone(surface) => DoSurfaceGone(p, surface)
    case Select(source) => DoSelect(p, source)
    case DeviceSelect(d, source) => DoDeviceSelect(p, d, source)
    case SourceGone(source) => DoSourceGone(p, source)
  }

  lemma SurfaceGoneKeeps(p: Pool, surface: Surface)
    requires Valid(p)
    ensures Valid(DoSurfaceGone(p, surface))
  {
    var q := DoSurfaceGone(p, surface);
    forall x | x in q.devices ensures DeskOk(q, x) { assert DeskOk(p, x); }
  }

  lemma StepKeeps(p: Pool, op: Op)
    requires Valid(p) && Enabled(p, op)
    ensures Valid(Step(p, op))
  {
    match op {
      case Register(d) => RegisterKeeps(p, d);
      case DeviceGone(d) => DeviceGoneKeeps(p, d);
      case Focus(surface) => FocusKeeps(p, surface);
      case SurfaceGone(surface) => SurfaceGoneKeeps(p, surface);
      case Select(source) => SelectKeeps(p, source);
      case DeviceSelect(d, source) => DeviceSelectKeeps(p, d, source);
      case SourceGone(source) => SourceGoneKeeps(p, source);
    }
  }

  ghost function Run(p: Pool, ops: seq<Op>): (r: Option<Pool>)
    requires Valid(p)
    ensures r.Some? ==> Valid(r.value)
    decreases |ops|
  {
    if ops == [] then Some(p)
    else if !Enabled(p, ops[0]) then None
    else
      StepKeeps(p, ops[0]);
      Run(Step(p, ops[0]), ops[1..])
  }

  lemma RunOfOne(p: Pool, op: Op)
    requires Valid(p) && Enabled(p, op)
    ensures Run(p, [op]) == Some(Step(p, op)) && Valid(Step(p, op))
  {
    StepKeeps(p, op);
    hide Step, Enabled, Valid;
    assert [op][1..] == [];
  }

  lemma FirstStep(p: Pool, ops: seq<Op>)
    requires Valid(p) && ops != []
    ensures if !Enabled(p, ops[0]) then Run(p, ops).None?
            else Valid(Step(p, ops[0])) && Run(p, ops) == Run(Step(p, ops[0]), ops[1..])
  {
    hide Step, Enabled, Valid;
    if Enabled(p, ops[0]) { StepKeeps(p, ops[0]); }
  }

  lemma {:induction false} RunAppend(p: Pool, a: seq<Op>, q: Pool, b: seq<Op>)
    requires Valid(p) && Run(p, a) == Some(q)
    ensures Run(p, a + b) == Run(q, b)
    decreases |a|
  {
    if a == [] {
      assert a + b == b;
    } else {
      hide Run, Step, Enabled, Valid;
      assert (a + b)[0] == a[0] && (a + b)[1..] == a[1..] + b;
      FirstStep(p, a);
      FirstStep(p, a + b);
      RunAppend(Step(p, a[0]), a[1..], q, b);
    }
  }

  /** A run so far, and one more step. */
  lemma OneMore(p: Pool, ops: seq<Op>, q: Pool, op: Op)
    requires Valid(p) && Run(p, ops) == Some(q) && Enabled(q, op)
    ensures Run(p, ops + [op]) == Some(Step(q, op)) && Valid(Step(q, op))
  {
    hide Step, Enabled, Valid;
    RunOfOne(q, op);
    RunAppend(p, ops, q, [op]);
  }

  /** After any run every device in the focus list knows the pool's source; the list is part of the
      device list, in its order, belongs to one client, and to that of the keyboard focus if there is one. */
  lemma SelectionViewAgrees(ops: seq<Op>, q: Pool)
    requires Run(Start(), ops) == Some(q)
    ensures Subsequence(q.focus, q.devices)
    ensures forall d :: d in q.focus ==> d in q.desks && View(q.desks[d]) == q.source
    ensures forall d, e :: d in q.focus && e in q.focus ==> d.client == e.client
    ensures q.keyboardFocus.Some? ==> forall d :: d in q.focus ==> d.client == q.keyboardFocus.value.client
  {
    FocusIsKnown(q);
    forall d | d in q.focus ensures d in q.desks && View(q.desks[d]) == q.source { assert DeskOk(q, d); }
  }

  // ---------------------------------------------------------------- is the list complete?

  /** The focus list has all devices of its client. */
  ghost predicate Complete(p: Pool) {
    if p.keyboardFocus.Some? then p.focus == ForClient(p.devices, p.keyboardFocus.value.client)
    else p.focus == [] || p.focus == ForClient(p.devices, p.focus[0].client)
  }

  /** A device that registers after its client's focus surface was destroyed, while other devices of
      that client are still in the list. */
  ghost predicate Misses(p: Pool, op: Op) {
    && op.Register? && p.keyboardFocus.None?
    && p.focus != [] && p.focus[0].client == op.device.client
  }

  lemma AddedForClient(devices: seq<Device>, d: Device, client: nat)
    ensures ForClient(devices + [d], client)
         == ForClient(devices, client) + if d.client == client then [d] else []
  {
    FilterAppend(devices, [d], OfClient(client));
  }

  /** The list stays complete on every step but one: it is cut short exactly when a device registers
      while its client lingers in the list without the keyboard focus. */
  lemma ListIsCutShortIff(p: Pool, op: Op)
    requires Valid(p) && Enabled(p, op) && Complete(p)
    ensures Complete(Step(p, op)) <==> !Misses(p, op)
  {
    match op {
      case Register(d) =>
        if p.keyboardFocus.Some? { AddedForClient(p.devices, d, p.keyboardFocus.value.client); }
        else if p.focus != [] { AddedForClient(p.devices, d, p.focus[0].client); }
      case DeviceGone(d) => DeviceGoneStaysComplete(p, d);
      case Focus(surface) => FocusStaysComplete(p, surface);
      case SourceGone(source) =>
        DroppedKeeps(p, source);
        WithdrawnKeeps(Dropped(p, source), p.devices, source);
      case _ =>
    }
  }

  ghost predicate NeverMisses(p: Pool, ops: seq<Op>)
    requires Valid(p)
    decreases |ops|
  {
    ops == []
    || (&& Enabled(p, ops[0]) && !Misses(p, ops[0])
        && (StepKeeps(p, ops[0]); NeverMisses(Step(p, ops[0]), ops[1..])))
  }

  /** So a run in which that never happens ends with the full list. */
  lemma {:induction false} ListIsComplete(p: Pool, ops: seq<Op>, q: Pool)
    requires Valid(p) && Complete(p) && Run(p, ops) == Some(q) && NeverMisses(p, ops)
    ensures Complete(q)
    decreases |ops|
  {
    if ops != [] {
      ListIsCutShortIff(p, ops[0]);
      StepKeeps(p, ops[0]);
      ListIsComplete(Step(p, ops[0]), ops[1..], q);
    }
  }

  lemma DeviceGoneStaysComplete(p: Pool, d: Device)
    requires Valid(p) && Complete(p) && d in p.devices
    ensures Complete(DoDeviceGone(p, d))
  {
    var q := DoDeviceGone(p, d);
    RemoveOneIsWithout(p.devices, d);
    RemoveOneIsWithout(p.focus, d);
    if p.keyboardFocus.Some? { FilterWithout(p.devices, d, OfClient(p.keyboardFocus.value.client)); }
    else if q.focus != [] {
      assert q.focus[0] in p.focus;
      FilterWithout(p.devices, d, OfClient(p.focus[0].client));
    }
  }

  lemma FocusStaysComplete(p: Pool, surface: Option<Surface>)
    requires Valid(p) && Complete(p)
    ensures Complete(DoFocus(p, surface))
  {
    if p.focus != [] { assert p.focus[0] in p.focus; }
  }

  /** The missed device: its client keeps the focus list through the next focus change, and the device
      is never told the selection although its client has the keyboard focus. */
  lemma LateDeviceIsMissed(p: Pool, d: Device, s: Surface, source: Source)
    requires Valid(p) && d !in p.devices && Misses(p, Register(d)) && s.client == d.client
    ensures
      var q := DoSelect(DoFocus(DoRegister(p, d), Some(s)), Some(source));
      && HasFocus(q, d) && q.source == Some(source)
      && d in q.desks && q.desks[d].sent == [] && d !in q.focus
  {
    FocusIsKnown(p);
  }

  /** `d` is in the list, but the focus surface of its client is gone. */
  ghost predicate Lingers(p: Pool, d: Device) {
    && Valid(p) && Complete(p) && p.devices == [d] && p.focus == [d] && p.keyboardFocus == None && p.source == None
    && d in p.desks && p.desks[d].sent == []
  }

  function Lingering(d: Device, s: Surface): seq<Op> {
    [Register(d)] + [Focus(Some(s))] + [SurfaceGone(s)]
  }

  lemma LingeringRun(d: Device, s: Surface) returns (q: Pool)
    requires s.client == d.client
    ensures Run(Start(), Lingering(d, s)) == Some(q) && Lingers(q, d)
  {
    RunOfOne(Start(), Register(d));
    var p1 := Step(Start(), Register(d));
    OneMore(Start(), [Register(d)], p1, Focus(Some(s)));
    var p2 := Step(p1, Focus(Some(s)));
    OneMore(Start(), [Register(d)] + [Focus(Some(s))], p2, SurfaceGone(s));
    q := Step(p2, SurfaceGone(s));
    assert [d][1..] == [];
    assert Filter([d], OfClient(s.client)) == [d];
  }

  /** A run from the start that does it: the second device of a client registers between the destruction
      of the client's focus surface and the focus on its next one. */
  lemma LateDeviceRun(d: Device, late: Device, s: Surface, next: Surface, source: Source)
    requires s.client == next.client == d.client == late.client && d != late
    ensures
      var r := Run(Start(), Lingering(d, s) + [Register(late)] + [Focus(Some(next))] + [Select(Some(source))]);
      && r.Some? && !Complete(r.value)
      && HasFocus(r.value, late) && r.value.source == Some(source)
      && late in r.value.desks && r.value.desks[late].sent == []
      && d in r.value.desks && r.value.desks[d].sent == [Some(source)]
  {
    var q := LingeringRun(d, s);
    OneMore(Start(), Lingering(d, s), q, Register(late));
    var q1 := DoRegister(q, late);
    OneMore(Start(), Lingering(d, s) + [Register(late)], q1, Focus(Some(next)));
    var q2 := DoFocus(q1, Some(next));
    OneMore(Start(), Lingering(d, s) + [Register(late)] + [Focus(Some(next))], q2, Select(Some(source)));
    hide Run, Valid, Complete;
    RegainedWithoutLate(q, d, late, next, source);
  }

  lemma RegainedWithoutLate(q: Pool, d: Device, late: Device, next: Surface, source: Source)
    requires Lingers(q, d) && next.client == d.client == late.client && d != late
    ensures
      var r := DoSelect(DoFocus(DoRegister(q, late), Some(next)), Some(source));
      && !Complete(r) && HasFocus(r, late) && r.source == Some(source)
      && late in r.desks && r.desks[late].sent == []
      && d in r.desks && r.desks[d].sent == [Some(source)]
  {
    hide Valid;
    AddedForClient([d], late, next.client);
    assert [d, late] == [d] + [late];
    var r := DoSelect(DoFocus(DoRegister(q, late), Some(next)), Some(source));
    assert r.focus == [d] && r.devices == [d] + [late];
  }

  // ---------------------------------------------------------------- who hears what

  /** A step sends selection events only to devices that are in the focus list when it ends. */
  lemma OnlyFocusedHear(p: Pool, op: Op, d: Device)
    requires Valid(p) && Enabled(p, op) && d in p.desks && d in Step(p, op).desks
    ensures p.desks[d].sent <= Step(p, op).desks[d].sent
    ensures Step(p, op).desks[d].sent != p.desks[d].sent ==> d in Step(p, op).focus
  {
    match op {
      case SourceGone(source) =>
        WithdrawnHeard(Dropped(p, source), p.devices, source, d);
      case _ =>
    }
  }

  lemma {:induction false} WithdrawnHeard(p: Pool, list: seq<Device>, source: Source, d: Device)
    requires d in p.desks && forall x :: x in list ==> x in p.desks
    ensures
      var q := Withdrawn(p, list, source);
      && q.focus == p.focus && p.desks[d].sent <= q.desks[d].sent && p.cancels <= q.cancels
      && (q.desks[d].sent != p.desks[d].sent ==> d in p.focus)
    decreases |list|
  {
    if list != [] {
      if p.desks[list[0]].selection == Some(source) {
        WithdrawnHeard(DoDeviceSelect(p, list[0], None), list[1..], source, d);
      } else {
        WithdrawnHeard(p, list[1..], source, d);
      }
    }
  }

  /** A source that is no longer the selection was told so, or is gone. */
  lemma DisplacedIsCancelled(p: Pool, op: Op, source: Source)
    requires Valid(p) && Enabled(p, op) && p.source == Some(source)
    ensures p.cancels <= Step(p, op).cancels
    ensures Step(p, op).source != Some(source) ==> source in Step(p, op).cancels || op == SourceGone(source)
  {
    if op.SourceGone? {
      WithdrawnCancels(Dropped(p, op.lost), p.devices, op.lost, source);
    }
  }

  lemma {:induction false} WithdrawnCancels(p: Pool, list: seq<Device>, lost: Source, source: Source)
    requires forall x :: x in list ==> x in p.desks
    ensures
      var q := Withdrawn(p, list, lost);
      p.cancels <= q.cancels && (p.source == Some(source) && q.source != Some(source) ==> source in q.cancels)
    decreases |list|
  {
    if list != [] {
      if p.desks[list[0]].selection == Some(lost) {
        var r := DoDeviceSelect(p, list[0], None);
        WithdrawnCancels(r, list[1..], lost, source);
        if p.source == Some(source) && r.source != Some(source) {
          assert r.cancels[|r.cancels| - 1] == source;
          assert source in Withdrawn(r, list[1..], lost).cancels;
        }
      } else {
        WithdrawnCancels(p, list[1..], lost, source);
      }
    }
  }

  lemma StepAddsCancels(p: Pool, op: Op)
    requires Valid(p) && Enabled(p, op)
    ensures p.cancels <= Step(p, op).cancels
  {
    if op.SourceGone? {
      WithdrawnCancels(Dropped(p, op.lost), p.devices, op.lost, op.lost);
    }
  }

  lemma {:induction false} RunAddsCancels(p: Pool, ops: seq<Op>, q: Pool)
    requires Valid(p) && Run(p, ops) == Some(q)
    ensures p.cancels <= q.cancels
    decreases |ops|
  {
    if ops != [] {
      StepKeeps(p, ops[0]);
      StepAddsCancels(p, ops[0]);
      RunAddsCancels(Step(p, ops[0]), ops[1..], q);
    }
  }

  /** Over whole runs: once a source has been the selection and is not any more, it was cancelled,
      unless it was destroyed meanwhile. */
  lemma {:induction false} ReplacedSourcesAreCancelled(p: Pool, ops: seq<Op>, q: Pool, source: Source)
    requires Valid(p) && Run(p, ops) == Some(q)
    requires p.source == Some(source) && q.source != Some(source)
    ensures source in q.cancels || SourceGone(source) in ops
    decreases |ops|
  {
    var r := Step(p, ops[0]);
    StepKeeps(p, ops[0]);
    if r.source == Some(source) {
      ReplacedSourcesAreCancelled(r, ops[1..], q, source);
    } else {
      DisplacedIsCancelled(p, ops[0], source);
      RunAddsCancels(r, ops[1..], q);
    }
  }

  // ---------------------------------------------------------------- the program

  class Device {
    const client: nat
    var selection: Option<Source>
    var sent: seq<Option<Source>>
    ghost var since: nat

    ghost function Record(): Desk
      reads this
    {
      Desk(selection, sent, since)
    }

    constructor (client: nat)
      ensures this.client == client && Record() == Desk(None, [], 0)
    {
      this.client := client;
      selection, sent, since := None, [], 0;
    }

    method SendSelection(source: Option<Source>)
      modifies this`sent
      ensures sent == old(sent) + [source]
    {
      sent := sent + [source];
    }
  }

  ghost function DesksOf(devices: seq<Device>): map<Device, Desk>
    reads devices
  {
    map d | d in devices :: d.Record()
  }

  class SelectionPool {
    var keyboardFocus: Option<Surface>
    var source: Option<Source>
    var focus: seq<Device>
    var devices: seq<Device>
    var cancels: seq<Source>

    ghost function Snap(): Pool
      reads this, devices
    {
      Pool(keyboardFocus, source, focus, devices, DesksOf(devices), cancels)
    }

    constructor ()
      ensures Snap() == Start()
    {
      keyboardFocus, source, focus, devices, cancels := None, None, [], [], [];
    }

    predicate HasKeyboardFocus(device: Device)
      reads this
    {
      keyboardFocus.Some? && keyboardFocus.value.client == device.client
    }

    method RegisterDevice(device: Device)
      requires Valid(Snap()) && device !in devices && device.Record() == Desk(None, [], 0)
      modifies this, device
      ensures Snap() == DoRegister(old(Snap()), device)
    {
      hide Valid, DesksOf;
      ghost var desks := DesksOf(devices);
      if HasKeyboardFocus(device) {
        focus := focus + [device];
        if source.Some? { device.SendSelection(source); }
      }
      assert device.sent == if HasKeyboardFocus(device) && source.Some? then [source] else [];
      assert DesksOf(devices) == desks;
      AddedDesk(devices, device);
      devices := devices + [device];
    }

    lemma AddedDesk(devices: seq<Device>, device: Device)
      ensures DesksOf(devices + [device]) == DesksOf(devices)[device := device.Record()]
    {
    }

    method DeviceDestroyed(device: Device)
      requires Valid(Snap()) && device in devices
      modifies this
      ensures Snap() == DoDeviceGone(old(Snap()), device)
    {
      hide DeskOk, Subsequence, RemoveOne, NoDup, DesksOf;
      DroppedDesk(devices, device);
      hide Valid;
      devices := RemoveOne(devices, device);
      focus := RemoveOne(focus, device);
    }

    lemma DroppedDesk(devices: seq<Device>, device: Device)
      requires NoDup(devices)
      ensures DesksOf(RemoveOne(devices, device)) == DesksOf(devices) - {device}
    {
      hide RemoveOne, NoDup;
      RemoveOneLeaves(devices, device);
      var rest := RemoveOne(devices, device);
      assert DesksOf(rest).Keys == DesksOf(devices).Keys - {device};
    }

    method Transmit(source: Option<Source>)
      requires NoDup(focus) && forall d :: d in focus ==> d in devices
      modifies devices
      ensures unchanged(this)
      ensures DesksOf(devices) == Sent(old(DesksOf(devices)), focus, source)
    {
      ghost var before := DesksOf(devices);
      for i := 0 to |focus|
        invariant forall d :: d in devices ==>
          d.Record() == if d in focus[..i] then before[d].(sent := before[d].sent + [source]) else before[d]
      {
        assert focus[..i + 1] == focus[..i] + [focus[i]];
        assert focus[i] in focus;
        focus[i].SendSelection(source);
      }
      assert focus[..|focus|] == focus;
    }

    /** The list is new: what its devices were sent before does not count any more. */
    ghost method MarkEntered()
      requires forall d :: d in focus ==> d in devices
      modifies devices
      ensures unchanged(this)
      ensures DesksOf(devices) == Entered(old(DesksOf(devices)), focus)
    {
      forall d | d in focus { d.since := |d.sent|; }
    }

    method SetFocusedSurface(surface: Option<Surface>)
      requires Valid(Snap())
      modifies this, devices
      ensures Snap() == DoSetFocused(old(Snap()), surface)
    {
      assert NoDup(devices);
      hide Valid, DesksOf, Sent, Entered, Filter, NoDup;
      ghost var desks := DesksOf(devices);
      if surface.None? {
        focus := [];
        assert DesksOf(devices) == desks;
        return;
      }
      if focus != [] && focus[0].client == surface.value.client { return; }
      focus := ForClient(devices, surface.value.client);
      assert DesksOf(devices) == desks;
      MarkEntered();
      if source.Some? { Transmit(source); }
    }

    method SetSelection(source: Option<Source>)
      requires Valid(Snap())
      modifies this, devices
      ensures Snap() == DoSelect(old(Snap()), source)
    {
      FocusIsKnown(Snap());
      hide Valid, DesksOf, Sent, NoDup;
      if this.source == source { return; }
      ghost var desks := DesksOf(devices);
      var before := this.source;
      this.source := source;
      assert DesksOf(devices) == desks;
      Transmit(source);
      if before.Some? { cancels := cancels + [before.value]; }
    }

    /** The notifier that `RegisterDevice` connects to the device's selection. */
    method SelectionChanged(device: Device)
      requires Valid(Snap()) && device in devices
      modifies this, devices
      ensures
        var p := old(Snap());
        Snap() == if HasFocus(p, device) then DoSelect(p, old(device.selection)) else p
    {
      if HasKeyboardFocus(device) { SetSelection(device.selection); }
    }

    /** What the request of a client does to its device, down to the pool. */
    method DeviceSetSelection(device: Device, source: Option<Source>)
      requires Valid(Snap()) && device in devices
      modifies this, devices
      ensures Snap() == DoDeviceSelect(old(Snap()), device, source)
    {
      ChosenKeeps(Snap(), device, source);
      hide DoSelect, Valid;
      if device.selection == source { return; }
      ghost var p := Snap();
      if device.selection.Some? { cancels := cancels + [device.selection.value]; }
      assert DesksOf(devices) == p.desks;
      device.selection := source;
      assert DesksOf(devices) == p.desks[device := p.desks[device].(selection := source)];
      assert Snap() == Chosen(p, device, source);
      SelectionChanged(device);
    }

    /** The pool's notifier on the source it has. */
    method DropSource()
      requires Valid(Snap()) && source.Some?
      modifies this, devices
      ensures Snap() == Dropped(old(Snap()), old(source.value))
    {
      FocusIsKnown(Snap());
      hide Valid, DesksOf, Sent, NoDup;
      ghost var desks := DesksOf(devices);
      source := None;
      assert DesksOf(devices) == desks;
      Transmit(None);
    }

    /** The notifiers of a source: the pool's own first, then one of each device that has it set. */
    method SourceDestroyed(lost: Source)
      requires Valid(Snap())
      modifies this, devices
      ensures Snap() == DoSourceGone(old(Snap()), lost)
    {
      DroppedKeeps(Snap(), lost);
      hide Valid, DesksOf, Sent, Withdrawn;
      if source == Some(lost) { DropSource(); }
      WithdrawAll(lost);
    }

    method WithdrawAll(lost: Source)
      requires Valid(Snap())
      modifies this, devices
      ensures Snap() == Withdrawn(old(Snap()), old(devices), lost)
    {
      hide Valid, DoDeviceSelect;
      ghost var p := Snap();
      var list := devices;
      for i := 0 to |list|
        invariant devices == list && Valid(Snap())
        invariant Withdrawn(Snap(), list[i..], lost) == Withdrawn(p, list, lost)
      {
        WithdrawDevice(list[i], list[i..], lost);
        assert list[i..][1..] == list[i + 1..];
      }
      assert list[|list|..] == [];
    }

    method WithdrawDevice(device: Device, ghost list: seq<Device>, lost: Source)
      requires Valid(Snap()) && list != [] && device == list[0] && forall d :: d in list ==> d in devices
      modifies this, devices
      ensures devices == old(devices) && Valid(Snap())
      ensures Withdrawn(Snap(), list[1..], lost) == Withdrawn(old(Snap()), list, lost)
    {
      ghost var p := Snap();
      DeviceSelectKeeps(p, device, None);
      hide Valid, DesksOf, Sent;
      if device.selection == Some(lost) { DeviceSetSelection(device, None); }
    }

    /** `Seat::setFocusedKeyboardSurface`, as far as the selection goes. */
    method SeatSetFocus(surface: Option<Surface>)
      requires Valid(Snap())
      modifies this, devices
      ensures Snap() == DoFocus(old(Snap()), surface)
    {
      hide Valid, DoSetFocused, DesksOf;
      if surface == keyboardFocus { return; }
      SetFocusedSurface(surface);
      ghost var desks := DesksOf(devices);
      keyboardFocus := surface;
      assert DesksOf(devices) == desks;
    }

    /** The keyboard pool forgets a destroyed surface. */
    method SurfaceDestroyed(surface: Surface)
      modifies this`keyboardFocus
      ensures Snap() == DoSurfaceGone(old(Snap()), surface)
    {
      ghost var desks := DesksOf(devices);
      if keyboardFocus == Some(surface) { keyboardFocus := None; }
      assert DesksOf(devices) == desks;
    }
  }
}
