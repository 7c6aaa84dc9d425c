/** The touch points of a seat: ids, the serials they went down with, and what the focused touch
    devices are told of them. */
module TouchPoints {
  import opened Seqs
  import opened Devices

  // ---------------------------------------------------------------- values

  datatype Event = Down(id: nat, serial: nat) | Up(id: nat, serial: nat) | Cancel

  /** One touch device: what it was sent, and how many serials had been drawn when it was created. */
  datatype Desk = Desk(log: seq<Event>, since: nat)

  /** `ids` is the program's map from touch point to serial; `stamps` counts the draws without wrapping
      and `clock` is their number. */
  datatype Pool = Pool(
    surface: Option<Surface>,
    focus: seq<Device>,
    devices: seq<Device>,
    desks: map<Device, Desk>,
    ids: map<nat, nat>,
    stamps: map<nat, nat>,
    hasPointer: bool,
    clock: nat)

  ghost function Start(clock: nat, hasPointer: bool): (p: Pool)
    ensures Valid(p)
  {
    Pool(None, [], [], map[], map[], map[], hasPointer, clock)
  }

  function OfClient(client: nat): Device -> bool {
    (d: Device) => d.client == client
  }

  ghost function Told(desks: map<Device, Desk>, list: seq<Device>, e: Event): map<Device, Desk> {
    map d | d in desks :: if d in list then desks[d].(log := desks[d].log + [e]) else desks[d]
  }

  /** One above the highest id in use, or 0. */
  ghost predicate IsNextId(ids: map<nat, nat>, id: nat) {
    (forall i :: i in ids ==> i < id) && (id == 0 || id - 1 in ids)
  }

  lemma {:induction false} NextIdExists(ids: map<nat, nat>, bound: nat) returns (id: nat)
    requires forall i :: i in ids ==> i < bound
    ensures IsNextId(ids, id)
  {
    if bound == 0 || bound - 1 in ids { id := bound; } else { id := NextIdExists(ids, bound - 1); }
  }

  // ---------------------------------------------------------------- operations

  ghost function DoCreate(p: Pool, d: Device): Pool {
    p.(devices := p.devices + [d],
       focus := if p.surface.Some? && p.surface.value.client == d.client then p.focus + [d] else p.focus,
       desks := p.desks[d := Desk([], p.clock)])
  }

  ghost function DoDestroy(p: Pool, d: Device): Pool {
    p.(devices := RemoveOne(p.devices, d), focus := RemoveOne(p.focus, d), desks := p.desks - {d})
  }

  /** The focus stays where it is during a touch sequence. */
  ghost function DoSetFocus(p: Pool, surface: Option<Surface>): Pool {
    if p.ids != map[] then p else p.(surface := surface, focus := ForSurface(surface, p.devices, OfClient))
  }

  ghost function DoSurfaceGone(p: Pool, surface: Surface): Pool {
    if p.surface != Some(surface) then p
    else p.(surface := None, focus := [],
            desks := if p.ids != map[] then Told(p.desks, p.focus, Cancel) else p.desks)
  }

  ghost function DoDown(p: Pool, id: nat): Pool {
    var clock := p.clock + 1;
    p.(clock := clock, ids := p.ids[id := Wire(clock)], stamps := p.stamps[id := clock],
       desks := Told(p.desks, p.focus, Down(id, Wire(clock))))
  }

  /** Without touch devices the first point is played on the pointer, which draws a second serial. */
  ghost function DoUp(p: Pool, id: nat): Pool {
    var clock := p.clock + 1;
    p.(clock := if id == 0 && p.focus == [] && p.hasPointer then clock + 1 else clock,
       ids := p.ids - {id}, stamps := p.stamps - {id},
       desks := Told(p.desks, p.focus, Up(id, Wire(clock))))
  }

  ghost function DoCancel(p: Pool): Pool {
    p.(ids := map[], stamps := map[], desks := Told(p.desks, p.focus, Cancel))
  }

  ghost function DoOther(p: Pool): Pool {
    p.(clock := p.clock + 1)
  }

  /** `has_implicit_grab`. */
  ghost predicate Grabs(p: Pool, serial: nat) {
    p.surface.Some? && exists id :: id in p.ids && p.ids[id] == serial
  }

  // ---------------------------------------------------------------- the client's view

  /** The touch points that a client believes are down. */
  function Live(log: seq<Event>): set<nat> {
    if log == [] then {} else Heard(Live(log[..|log| - 1]), log[|log| - 1])
  }

  function Heard(live: set<nat>, e: Event): set<nat> {
    match e
    case Down(id, _) => live + {id}
    case Up(id, _) => live - {id}
    case Cancel => {}
  }

  lemma OneMore(log: seq<Event>, e: Event)
    ensures Live(log + [e]) == Heard(Live(log), e)
  {
    assert (log + [e])[..|log|] == log;
  }

  // ---------------------------------------------------------------- what every run keeps

  /** The points that went down after the device was created: all that it can know. */
  ghost function Since(stamps: map<nat, nat>, clock: nat): set<nat> {
    set id | id in stamps && stamps[id] > clock
  }

  ghost predicate DeskOk(p: Pool, d: Device) {
    && d in p.desks && p.desks[d].since <= p.clock
    && Live(p.desks[d].log) == if d in p.focus then Since(p.stamps, p.desks[d].since) else {}
  }

  ghost predicate IdsOk(p: Pool) {
    && p.ids.Keys == p.stamps.Keys
    && (forall id :: id in p.stamps ==> p.stamps[id] <= p.clock && p.ids[id] == Wire(p.stamps[id]))
    && (forall i, j :: i in p.stamps && j in p.stamps && i < j ==> p.stamps[i] < p.stamps[j])
  }

  ghost predicate Valid(p: Pool) {
    && NoDup(p.devices)
    && p.desks.Keys == (set d | d in p.devices)
    && p.focus == ForSurface(p.surface, p.devices, OfClient)
    && IdsOk(p)
    && (forall d {:trigger DeskOk(p, d)} :: d in p.devices ==> DeskOk(p, d))
  }

  lemma CreateKeeps(p: Pool, d: Device)
    requires Valid(p) && d !in p.devices
    ensures Valid(DoCreate(p, d))
  {
    NothingSince(p);
    hide Filter, ForSurface, Live, Since;
    var q := DoCreate(p, d);
    AddedForSurface(p.surface, p.devices, d, OfClient);
    NothingHeard();
    forall x | x in q.devices ensures DeskOk(q, x) {
      if x != d { assert DeskOk(p, x); }
    }
  }

  lemma NothingHeard()
    ensures Live([]) == {}
  {
  }

  lemma NothingSince(p: Pool)
    requires IdsOk(p)
    ensures Since(p.stamps, p.clock) == {}
  {
  }

  lemma DestroyKeeps(p: Pool, d: Device)
    requires Valid(p) && d in p.devices
    ensures Valid(DoDestroy(p, d))
  {
    assert NoDup(p.focus);
    hide Filter, ForSurface, RemoveOne, NoDup, Live, Since, Without;
    var q := DoDestroy(p, d);
    RemovedForSurface(p.surface, p.devices, d, OfClient);
    RemoveOneLeaves(p.devices, d);
    RemoveOneLeaves(p.focus, d);
    forall x | x in q.devices ensures DeskOk(q, x) { assert DeskOk(p, x); }
  }

  lemma SetFocusKeeps(p: Pool, surface: Option<Surface>)
    requires Valid(p)
    ensures Valid(DoSetFocus(p, surface))
  {
    hide Filter, Live;
    var q := DoSetFocus(p, surface);
    forall x | x in q.devices ensures DeskOk(q, x) {
      assert DeskOk(p, x);
      if p.ids == map[] { assert Since(p.stamps, p.desks[x].since) == {}; }
    }
  }

  lemma SurfaceGoneKeeps(p: Pool, surface: Surface)
    requires Valid(p)
    ensures Valid(DoSurfaceGone(p, surface))
  {
    hide Filter, Live;
    var q := DoSurfaceGone(p, surface);
    forall x | x in q.devices ensures DeskOk(q, x) {
      assert DeskOk(p, x);
      OneMore(p.desks[x].log, Cancel);
      if p.ids == map[] { assert Since(p.stamps, p.desks[x].since) == {}; }
    }
  }

  lemma DownKeeps(p: Pool, id: nat)
    requires Valid(p) && IsNextId(p.ids, id)
    ensures Valid(DoDown(p, id))
  {
    hide Filter, Live, Wire;
    var q := DoDown(p, id);
    forall x | x in q.devices ensures DeskOk(q, x) {
      assert DeskOk(p, x);
      OneMore(p.desks[x].log, Down(id, Wire(q.clock)));
      assert Since(q.stamps, p.desks[x].since) == Since(p.stamps, p.desks[x].since) + {id};
    }
  }

  lemma UpKeeps(p: Pool, id: nat)
    requires Valid(p) && id in p.ids
    ensures Valid(DoUp(p, id))
  {
    hide Filter, Live, Wire;
    var q := DoUp(p, id);
    forall x | x in q.devices ensures DeskOk(q, x) {
      assert DeskOk(p, x);
      OneMore(p.desks[x].log, Up(id, Wire(p.clock + 1)));
      assert Since(q.stamps, p.desks[x].since) == Since(p.stamps, p.desks[x].since) - {id};
    }
  }

  lemma CancelKeeps(p: Pool)
    requires Valid(p)
    ensures Valid(DoCancel(p))
  {
    hide Filter, Live;
    var q := DoCancel(p);
    forall x | x in q.devices ensures DeskOk(q, x) {
      assert DeskOk(p, x);
      OneMore(p.desks[x].log, Cancel);
      assert Since(q.stamps, p.desks[x].since) == {};
    }
  }

  lemma OtherKeeps(p: Pool)
    requires Valid(p)
    ensures Valid(DoOther(p))
  {
    hide Filter, Live;
    var q := DoOther(p);
    forall x | x in q.devices ensures DeskOk(q, x) { assert DeskOk(p, x); }
  }

  // ---------------------------------------------------------------- runs

  datatype Op =
    | Create(device: Device)
    | Destroy(device: Device)
    | SetFocus(surface: Option<Surface>)
    | SurfaceGone(gone: Surface)
    | TouchDown(down: nat)
    | TouchUp(up: nat)
    | CancelSequence
    | Other

  ghost predicate Enabled(p: Pool, op: Op) {
    match op
    case Create(d) => d !in p.devices
    case Destroy(d) => d in p.devices
    case TouchDown(id) => IsNextId(p.ids, id)
    case TouchUp(id) => id in p.ids
    case _ => true
  }

  ghost function Step(p: Pool, op: Op): Pool {
    match op
    case Create(d) => DoCreate(p, d)
    case Destroy(d) => DoDestroy(p, d)
    case SetFocus(surface) => DoSetFocus(p, surface)
    case SurfaceGone(surface) => DoSurfaceGone(p, surface)
    case TouchDown(id) => DoDown(p, id)
    case TouchUp(id) => DoUp(p, id)
    case CancelSequence => DoCancel(p)
    case Other => DoOther(p)
  }

  lemma StepKeeps(p: Pool, op: Op)
    requires Valid(p) && Enabled(p, op)
    ensures Valid(Step(p, op))
  {
    hide Valid, DoCreate, DoDestroy, DoSetFocus, DoSurfaceGone, DoDown, DoUp, DoCancel, DoOther;
    match op {
      case Create(d) => CreateKeeps(p, d);
      case Destroy(d) => DestroyKeeps(p, d);
      case SetFocus(surface) => SetFocusKeeps(p, surface);
      case SurfaceGone(surface) => SurfaceGoneKeeps(p, surface);
      case TouchDown(id) => DownKeeps(p, id);
      case TouchUp(id) => UpKeeps(p, id);
      case CancelSequence => CancelKeeps(p);
      case Other => OtherKeeps(p);
    }
  }

  ghost function Run(p: Pool, ops: seq<Op>): (r: Option<Pool>)
    requires Valid(p)
    ensures r.Some? ==> Valid(r.value)
    decreases |ops|
  {
    if ops == [] then Some(p)
    else if !Enabled(p, ops[0]) then None
    else
      StepKeeps(p, ops[0]);
      Run(Step(p, ops[0]), ops[1..])
  }

  /** After any run a focused device believes those points to be down that are, as far as they went down
      after it was created; an unfocused device believes in none. */
  lemma TouchViewAgrees(clock: nat, hasPointer: bool, ops: seq<Op>, q: Pool, d: Device)
    requires Run(Start(clock, hasPointer), ops) == Some(q) && d in q.devices
    ensures q.focus == ForSurface(q.surface, q.devices, OfClient)
    ensures d in q.desks
    ensures Live(q.desks[d].log) == if d in q.focus then Since(q.stamps, q.desks[d].since) else {}
  {
    assert DeskOk(q, d);
  }

  /** A new point never has the id of one that is down, neither for the pool nor for any client. */
  lemma NewIdIsFresh(p: Pool, id: nat, d: Device)
    requires Valid(p) && IsNextId(p.ids, id) && d in p.devices
    ensures id !in p.ids && d in p.desks && id !in Live(p.desks[d].log)
  {
    assert DeskOk(p, d);
  }

  /** A device is told that a point went up of which it never saw the start exactly when the device was
      created in the middle of that touch. */
  lemma StrangePointIff(p: Pool, id: nat, d: Device)
    requires Valid(p) && id in p.ids && d in p.focus
    ensures d in p.desks && id in p.stamps
    ensures id !in Live(p.desks[d].log) <==> p.stamps[id] <= p.desks[d].since
  {
    assert DeskOk(p, d);
  }

  /** Points that went down fewer than 2^32 draws ago. */
  ghost predicate Young(p: Pool) {
    forall id :: id in p.stamps ==> p.clock - p.stamps[id] < SERIAL_LIMIT
  }

  /** Serials are drawn in the order of the ids, and an accepted serial names one touch point. */
  lemma GrabNamesOnePoint(p: Pool, i: nat, j: nat)
    requires Valid(p) && i in p.ids && j in p.ids && i < j
    ensures i in p.stamps && j in p.stamps && p.stamps[i] < p.stamps[j]
    ensures Young(p) ==> p.ids[i] != p.ids[j]
  {
    if Young(p) { WireIsInjective(p.stamps[i], p.stamps[j]); }
  }

  // ---------------------------------------------------------------- the program

  class Device {
    const client: nat
    var log: seq<Event>
    ghost var since: nat

    ghost function Record(): Desk
      reads this
    {
      Desk(log, since)
    }

    constructor (client: nat, ghost clock: nat)
      ensures this.client == client && Record() == Desk([], clock)
    {
      this.client, log, since := client, [], clock;
    }

    method Send(e: Event)
      modifies this`log
      ensures log == old(log) + [e]
    {
      log := log + [e];
    }
  }

  ghost function DesksOf(devices: seq<Device>): map<Device, Desk>
    reads devices
  {
    map d | d in devices :: d.Record()
  }

  class TouchPool {
    var surface: Option<Surface>
    var focus: seq<Device>
    var devices: seq<Device>
    var ids: map<nat, nat>
    var hasPointer: bool
    /** The display's serial counter. */
    var serial: nat
    ghost var stamps: map<nat, nat>
    ghost var clock: nat

    ghost function Snap(): Pool
      reads this, devices
    {
      Pool(surface, focus, devices, DesksOf(devices), ids, stamps, hasPointer, clock)
    }

    ghost predicate Sound()
      reads this, devices
    {
      Valid(Snap()) && serial == Wire(clock)
    }

    constructor (serial: nat, hasPointer: bool)
      requires serial < SERIAL_LIMIT
      ensures Snap() == Start(serial, hasPointer) && this.serial == Wire(clock)
    {
      surface, focus, devices, ids, this.hasPointer, this.serial := None, [], [], map[], hasPointer, serial;
      stamps, clock := map[], serial;
    }

    method DrawSerial() returns (r: nat)
      requires serial == Wire(clock)
      modifies this`serial, this`clock
      ensures r == serial == Wire(Snap().clock) == Wire(clock)
      ensures Snap() == old(Snap()).(clock := old(Snap()).clock + 1)
    {
      ghost var desks := DesksOf(devices);
      serial := NextSerial(serial);
      clock := clock + 1;
      r := serial;
      assert DesksOf(devices) == desks;
    }

    method SendFocused(e: Event)
      requires NoDup(focus) && forall d :: d in focus ==> d in devices
      modifies devices
      ensures unchanged(this)
      ensures Snap() == old(Snap()).(desks := Told(old(Snap()).desks, old(Snap()).focus, e))
    {
      ghost var before := DesksOf(devices);
      for i := 0 to |focus|
        invariant forall d :: d in devices ==>
          d.Record() == if d in focus[..i] then before[d].(log := before[d].log + [e]) else before[d]
      {
        assert focus[..i + 1] == focus[..i] + [focus[i]];
        assert focus[i] in focus;
        focus[i].Send(e);
      }
      assert focus[..|focus|] == focus;
      assert DesksOf(devices) == Told(before, focus, e);
    }

    method PutPoint(id: nat, drawn: nat)
      modifies this`ids, this`stamps
      ensures
        var p := old(Snap());
        Snap() == p.(ids := p.ids[id := drawn], stamps := p.stamps[id := p.clock])
    {
      ghost var desks := DesksOf(devices);
      ids, stamps := ids[id := drawn], stamps[id := clock];
      assert DesksOf(devices) == desks;
    }

    method DropPoint(id: nat)
      modifies this`ids, this`stamps
      ensures
        var p := old(Snap());
        Snap() == p.(ids := p.ids - {id}, stamps := p.stamps - {id})
    {
      ghost var desks := DesksOf(devices);
      ids, stamps := ids - {id}, stamps - {id};
      assert DesksOf(devices) == desks;
    }

    method CreateDevice(client: nat) returns (device: Device)
      requires Sound()
      modifies this
      ensures fresh(device) && device.client == client && serial == Wire(clock)
      ensures Snap() == DoCreate(old(Snap()), device)
    {
      hide Valid, DesksOf;
      ghost var desks := DesksOf(devices);
      device := new Device(client, clock);
      if surface.Some? && surface.value.client == client { focus := focus + [device]; }
      assert DesksOf(devices) == desks;
      AddedDesk(devices, device);
      devices := devices + [device];
    }

    lemma AddedDesk(devices: seq<Device>, device: Device)
      ensures DesksOf(devices + [device]) == DesksOf(devices)[device := device.Record()]
    {
    }

    method DeviceDestroyed(device: Device)
      requires Sound() && device in devices
      modifies this
      ensures Snap() == DoDestroy(old(Snap()), device) && serial == Wire(clock)
    {
      hide DeskOk, IdsOk, Filter, ForSurface, Wire, RemoveOne, NoDup, DesksOf;
      DroppedDesk(devices, device);
      hide Valid;
      devices, focus := RemoveOne(devices, device), RemoveOne(focus, device);
    }

    lemma DroppedDesk(devices: seq<Device>, device: Device)
      requires NoDup(devices)
      ensures DesksOf(RemoveOne(devices, device)) == DesksOf(devices) - {device}
    {
      hide RemoveOne, NoDup;
      RemoveOneLeaves(devices, device);
      var rest := RemoveOne(devices, device);
      assert DesksOf(rest).Keys == DesksOf(devices).Keys - {device};
    }

    method SetFocusedSurface(surface: Option<Surface>)
      requires Sound()
      modifies this
      ensures Snap() == DoSetFocus(old(Snap()), surface) && serial == Wire(clock)
    {
      hide Valid, DesksOf, Filter;
      ghost var desks := DesksOf(devices);
      if ids != map[] { return; }
      this.surface := surface;
      focus := ForSurface(surface, devices, OfClient);
      assert DesksOf(devices) == desks;
    }

    lemma FocusIsPart()
      requires Sound()
      ensures NoDup(focus) && forall d :: d in focus ==> d in devices
    {
    }

    method SurfaceDestroyed(gone: Surface)
      requires Sound()
      modifies this, devices
      ensures Snap() == DoSurfaceGone(old(Snap()), gone) && serial == Wire(clock)
    {
      FocusIsPart();
      hide Valid, DesksOf, Told, Filter, NoDup, Wire;
      if surface == Some(gone) {
        if ids != map[] { SendFocused(Cancel); }
        ghost var desks := DesksOf(devices);
        surface, focus := None, [];
        assert DesksOf(devices) == desks;
      }
    }

    /** The id behind the highest one; the C++ map keeps its keys in order, here they are searched. */
    method NextId() returns (id: nat)
      ensures IsNextId(ids, id)
    {
      id := 0;
      var rest := ids.Keys;
      while rest != {}
        invariant rest <= ids.Keys
        invariant forall i :: i in ids && i !in rest ==> i < id
        invariant id == 0 || id - 1 in ids
        decreases rest
      {
        var i :| i in rest;
        if i >= id { id := i + 1; }
        rest := rest - {i};
      }
    }

    method TouchDown() returns (id: nat)
      requires Sound()
      modifies this, devices
      ensures IsNextId(old(ids), id)
      ensures Snap() == DoDown(old(Snap()), id) && serial == Wire(clock)
    {
      FocusIsPart();
      hide Valid, DesksOf, Told, Filter, NoDup, Wire, IsNextId, DoDown, Snap;
      ghost var p := Snap();
      id := NextId();
      var drawn := DrawSerial();
      SendFocused(Down(id, drawn));
      PutPoint(id, drawn);
      DownIs(p, id, Snap());
    }

    lemma DownIs(p: Pool, id: nat, q: Pool)
      requires q.surface == p.surface && q.focus == p.focus && q.devices == p.devices
      requires q.hasPointer == p.hasPointer && q.clock == p.clock + 1
      requires q.ids == p.ids[id := Wire(q.clock)] && q.stamps == p.stamps[id := q.clock]
      requires q.desks == Told(p.desks, p.focus, Down(id, Wire(q.clock)))
      ensures q == DoDown(p, id)
    {
    }

    method TouchUp(id: nat)
      requires Sound() && id in ids
      modifies this, devices
      ensures Snap() == DoUp(old(Snap()), id) && serial == Wire(clock)
    {
      FocusIsPart();
      hide Valid, DesksOf, Told, ForSurface, NoDup, Wire, DoUp, Snap;
      UpIs(Snap(), id);
      SendUp(id);
      PlayOnPointer(id);
      DropPoint(id);
    }

    method SendUp(id: nat)
      requires serial == Wire(clock) && NoDup(focus) && forall d :: d in focus ==> d in devices
      modifies this`serial, this`clock, devices
      ensures serial == Wire(clock)
      ensures
        var p := old(Snap());
        Snap() == p.(clock := p.clock + 1, desks := Told(p.desks, p.focus, Up(id, Wire(p.clock + 1))))
    {
      hide DesksOf, Told, NoDup, Wire, Snap;
      var drawn := DrawSerial();
      SendFocused(Up(id, drawn));
    }

    /** The pointer events themselves are not part of this model, the serial they draw is. */
    method PlayOnPointer(id: nat)
      requires serial == Wire(clock)
      modifies this`serial, this`clock
      ensures serial == Wire(clock)
      ensures
        var p := old(Snap());
        Snap() == p.(clock := if id == 0 && p.focus == [] && p.hasPointer then p.clock + 1 else p.clock)
    {
      if id == 0 && focus == [] && hasPointer { var _ := DrawSerial(); }
    }

    lemma UpIs(p: Pool, id: nat)
      ensures
        var a := p.(clock := p.clock + 1, desks := Told(p.desks, p.focus, Up(id, Wire(p.clock + 1))));
        var b := a.(clock := if id == 0 && a.focus == [] && a.hasPointer then a.clock + 1 else a.clock);
        DoUp(p, id) == b.(ids := b.ids - {id}, stamps := b.stamps - {id})
    {
    }

    method CancelSequence()
      requires Sound()
      modifies this, devices
      ensures Snap() == DoCancel(old(Snap())) && serial == Wire(clock)
    {
      FocusIsPart();
      hide Valid, DesksOf, Told, Filter, NoDup, Wire;
      SendFocused(Cancel);
      ghost var told := DesksOf(devices);
      ids, stamps := map[], map[];
      assert DesksOf(devices) == told;
    }

    method HasImplicitGrab(serial: nat) returns (grab: bool)
      ensures grab <==> Grabs(Snap(), serial)
    {
      if surface.None? { return false; }
      var rest := ids.Keys;
      while rest != {}
        invariant rest <= ids.Keys
        invariant forall i :: i in ids && i !in rest ==> ids[i] != serial
        decreases rest
      {
        var i :| i in rest;
        if ids[i] == serial { return true; }
        rest := rest - {i};
      }
      return false;
    }
  }
}
