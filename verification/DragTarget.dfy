/** Drag and drop: the pool of a seat enters, moves over, leaves and drops on the data devices of the
    surface under the drag. */
module DragTarget {
  import opened Seqs
  import opened Devices

  // ---------------------------------------------------------------- values

  type Source = nat

  datatype Mode = NoDrag | PointerDrag | TouchDrag

  datatype Event = Enter(serial: nat, surface: Surface) | Motion | Leave | Drop

  datatype SourceEvent = NoAction(source: Source) | DropPerformed(source: Source)

  /** `cancelLink` is the stored handle of the connection that cancels the drag with its source. */
  datatype Origin = Origin(src: Option<Source>, mode: Mode, surface: Option<Surface>, serial: nat,
                           cancelLink: Option<Source>)

  const NO_ORIGIN := Origin(None, NoDrag, None, 0, None)

  /** `motion` says which motion signal is connected. */
  datatype Target = Target(surface: Option<Surface>, devices: seq<Device>, motion: Mode)

  const NO_TARGET := Target(None, [], NoDrag)

  /** `resets` are the living sources whose destruction clears the origin, `cancelling` those whose
      destruction cancels the drag, once per connection. `devices` are the seat's data devices. */
  datatype Pool = Pool(
    origin: Origin,
    target: Target,
    devices: seq<Device>,
    logs: map<Device, seq<Event>>,
    toSources: seq<SourceEvent>,
    resets: set<Source>,
    cancelling: multiset<Source>,
    serial: nat)

  ghost function Idle(serial: nat): (p: Pool)
    ensures Valid(p)
  {
    Pool(NO_ORIGIN, NO_TARGET, [], map[], [], {}, multiset{}, serial)
  }

  function OfClient(client: nat): Device -> bool {
    (d: Device) => d.client == client
  }

  ghost function Told(logs: map<Device, seq<Event>>, list: seq<Device>, e: Event): map<Device, seq<Event>> {
    map d | d in logs :: if d in list then logs[d] + [e] else logs[d]
  }

  // ---------------------------------------------------------------- operations

  ghost function DoCancelTarget(p: Pool): Pool {
    if p.target.surface.None? then p
    else p.(target := NO_TARGET, logs := Told(p.logs, p.target.devices, Leave))
  }

  ghost function DoUpdateTarget(p: Pool, surface: Option<Surface>, serial: nat): Pool {
    EnterTarget(DoCancelTarget(p), surface, serial)
  }

  /** The part of `update_target` behind the cancellation, with `setup_motion` and `update_offer`. */
  ghost function EnterTarget(p: Pool, surface: Option<Surface>, serial: nat): Pool {
    var list := ForSurface(surface, p.devices, OfClient);
    var told := if list == [] && p.origin.src.Some?
                then p.(toSources := p.toSources + [NoAction(p.origin.src.value)]) else p;
    if surface.None? then told
    else
      var all := p.target.devices + list;
      told.(target := Target(surface, all, if p.origin.mode.NoDrag? then p.target.motion else p.origin.mode),
            logs := Told(p.logs, all, Enter(serial, surface.value)))
  }

  ghost function DoSetTarget(p: Pool, surface: Option<Surface>): Pool {
    if surface == p.target.surface then p
    else
      var q := DoCancelTarget(p);
      var serial := NextSerial(q.serial);
      DoUpdateTarget(q.(serial := serial), surface, serial)
  }

  /** `mode` is what the implicit grab decides. */
  ghost function DoStart(p: Pool, src: Option<Source>, origin: Surface, mode: Mode, serial: nat): Pool {
    DoUpdateTarget(Begun(p, src, origin, mode, serial), Some(origin), serial)
  }

  ghost function Begun(p: Pool, src: Option<Source>, origin: Surface, mode: Mode, serial: nat): Pool {
    var link := if src.Some? then src else p.origin.cancelLink;
    var q := p.(origin := Origin(src, mode, Some(origin), serial, link),
                target := p.target.(surface := Some(origin)));
    if src.None? then q
    else q.(resets := p.resets + {src.value}, cancelling := p.cancelling + multiset{src.value})
  }

  /** Note that the source is told of a drop however the drag ends. */
  ghost function DoEnd(p: Pool): Pool {
    p.(origin := NO_ORIGIN,
       target := NO_TARGET,
       cancelling := if p.origin.cancelLink.Some? then p.cancelling - multiset{p.origin.cancelLink.value}
                     else p.cancelling,
       toSources := if p.origin.src.Some? then p.toSources + [DropPerformed(p.origin.src.value)] else p.toSources)
  }

  ghost function DoCancel(p: Pool): Pool {
    DoEnd(DoCancelTarget(p))
  }

  ghost function Dropped(p: Pool): Pool {
    p.(logs := Told(p.logs, p.target.devices, Drop), target := p.target.(devices := []))
  }

  ghost function DoDrop(p: Pool): Pool {
    DoEnd(DoCancelTarget(Dropped(p)))
  }

  ghost function DoMotion(p: Pool): Pool {
    p.(logs := Told(p.logs, p.target.devices, Motion))
  }

  ghost function DoPointerMoved(p: Pool): Pool {
    if p.target.motion.PointerDrag? then DoMotion(p) else p
  }

  ghost function DoTouchMoved(p: Pool, serial: nat): Pool {
    if p.target.motion.TouchDrag? && serial == p.origin.serial then DoMotion(p) else p
  }

  ghost function DoSurfaceGone(p: Pool, surface: Surface): Pool {
    if p.target.surface == Some(surface) then DoCancelTarget(p) else p
  }

  /** The connections of a source fire in the order they were made: clear the origin, then cancel. */
  ghost function DoSourceGone(p: Pool, source: Source): Pool {
    var cleared := if source in p.resets then p.(origin := NO_ORIGIN) else p;
    var q := if source in p.cancelling then DoCancel(cleared) else cleared;
    q.(resets := q.resets - {source}, cancelling := q.cancelling[source := 0])
  }

  ghost function DoRegister(p: Pool, d: Device): Pool {
    p.(devices := p.devices + [d], logs := p.logs[d := []])
  }

  ghost function DoDeviceGone(p: Pool, d: Device): Pool {
    p.(devices := RemoveOne(p.devices, d),
       target := p.target.(devices := RemoveOne(p.target.devices, d)),
       logs := p.logs - {d})
  }

  // ---------------------------------------------------------------- the protocol of one device

  /** Reads a log against (enter motion* (leave | drop))*: `Some(true)` after an enter that is not
      closed yet, `Some(false)` between sessions, `None` when the log breaks the grammar. */
  function Phase(log: seq<Event>): Option<bool> {
    if log == [] then Some(false) else Advance(Phase(log[..|log| - 1]), log[|log| - 1])
  }

  function Advance(phase: Option<bool>, e: Event): Option<bool> {
    match e
    case Enter(_, _) => if phase == Some(false) then Some(true) else None
    case Motion => if phase == Some(true) then Some(true) else None
    case Leave => if phase == Some(true) then Some(false) else None
    case Drop => if phase == Some(true) then Some(false) else None
  }

  lemma OneMore(log: seq<Event>, e: Event)
    ensures Phase(log + [e]) == Advance(Phase(log), e)
  {
    assert (log + [e])[..|log|] == log;
  }

  /** enter motion*, and the same with a leave or a drop behind it. */
  ghost predicate Open(s: seq<Event>) {
    s != [] && s[0].Enter? && forall i :: 0 < i < |s| ==> s[i].Motion?
  }

  ghost predicate Session(s: seq<Event>) {
    s != [] && (s[|s| - 1].Leave? || s[|s| - 1].Drop?) && Open(s[..|s| - 1])
  }

  function Flatten(parts: seq<seq<Event>>): seq<Event> {
    if parts == [] then [] else Flatten(parts[..|parts| - 1]) + parts[|parts| - 1]
  }

  /** A log that does not break the grammar is a row of whole sessions, and an open one at the end
      exactly when the device is entered. */
  lemma {:induction false} LogIsSessions(log: seq<Event>) returns (parts: seq<seq<Event>>, open: seq<Event>)
    requires Phase(log).Some?
    ensures log == Flatten(parts) + open && (forall s :: s in parts ==> Session(s))
    ensures if Phase(log) == Some(true) then Open(open) else open == []
  {
    if log == [] {
      parts, open := [], [];
    } else {
      var e := log[|log| - 1];
      parts, open := LogIsSessions(log[..|log| - 1]);
      assert log == log[..|log| - 1] + [e];
      var closed := open + [e];
      if e.Leave? || e.Drop? {
        assert closed[..|closed| - 1] == open;
        assert Flatten(parts + [closed]) == Flatten(parts) + closed by {
          assert (parts + [closed])[..|parts|] == parts;
        }
        parts, open := parts + [closed], [];
      } else {
        open := closed;
      }
    }
  }

  // ---------------------------------------------------------------- what every run keeps

  ghost predicate LogOk(p: Pool, d: Device) {
    d in p.logs && Phase(p.logs[d]) == Some(d in p.target.devices)
  }

  ghost predicate Valid(p: Pool) {
    && NoDup(p.devices) && NoDup(p.target.devices)
    && p.logs.Keys == (set d | d in p.devices)
    && TargetOk(p)
    && (p.origin.src.Some? ==> p.origin.src.value in p.resets && p.origin.cancelLink == p.origin.src)
    && (p.origin.cancelLink.Some? ==> p.origin.cancelLink.value in p.cancelling)
    && (forall s :: s in p.cancelling ==> s in p.resets)
    && (forall d {:trigger LogOk(p, d)} :: d in p.devices ==> LogOk(p, d))
  }

  /** Nobody is entered without a target surface, and only devices of its client are. */
  ghost predicate TargetOk(p: Pool) {
    && (forall d :: d in p.target.devices ==>
          d in p.devices && p.target.surface.Some? && d.client == p.target.surface.value.client)
    && (!p.target.motion.NoDrag? ==> p.target.surface.Some?)
  }

  /** Between `start` overwriting the target surface and the cancellation that follows. */
  ghost predicate AlmostValid(p: Pool) {
    && NoDup(p.devices) && NoDup(p.target.devices)
    && p.logs.Keys == (set d | d in p.devices)
    && (forall d :: d in p.target.devices ==> d in p.devices && p.target.surface.Some?)
    && (!p.target.motion.NoDrag? ==> p.target.surface.Some?)
    && (p.origin.src.Some? ==> p.origin.src.value in p.resets && p.origin.cancelLink == p.origin.src)
    && (p.origin.cancelLink.Some? ==> p.origin.cancelLink.value in p.cancelling)
    && (forall s :: s in p.cancelling ==> s in p.resets)
    && (forall d {:trigger LogOk(p, d)} :: d in p.devices ==> LogOk(p, d))
  }

  lemma CancelTargetKeeps(p: Pool)
    requires AlmostValid(p)
    ensures Valid(DoCancelTarget(p)) && DoCancelTarget(p).target == NO_TARGET
  {
    hide Phase;
    var q := DoCancelTarget(p);
    if p.target.devices != [] { assert p.target.devices[0] in p.target.devices; }
    forall d | d in q.devices ensures LogOk(q, d) {
      assert LogOk(p, d);
      OneMore(p.logs[d], Leave);
    }
  }

  lemma EnterTargetKeeps(p: Pool, surface: Option<Surface>, serial: nat)
    requires Valid(p) && p.target == NO_TARGET
    ensures Valid(EnterTarget(p, surface, serial))
  {
    hide Phase, Filter, LogOk;
    var q := EnterTarget(p, surface, serial);
    assert p.target.devices + ForSurface(surface, p.devices, OfClient) == ForSurface(surface, p.devices, OfClient);
    forall d | d in q.devices ensures LogOk(q, d) {
      assert LogOk(p, d);
      EnteredOk(p, surface, serial, d);
    }
  }

  lemma EnteredOk(p: Pool, surface: Option<Surface>, serial: nat, d: Device)
    requires LogOk(p, d) && p.target == NO_TARGET
    ensures LogOk(EnterTarget(p, surface, serial), d)
  {
    hide Phase, Filter;
    if surface.Some? { OneMore(p.logs[d], Enter(serial, surface.value)); }
  }

  lemma SetTargetKeeps(p: Pool, surface: Option<Surface>)
    requires Valid(p)
    ensures Valid(DoSetTarget(p, surface))
  {
    hide Phase, Filter, LogOk, EnterTarget;
    if surface != p.target.surface {
      var q := DoCancelTarget(p);
      CancelTargetKeeps(p);
      var r := q.(serial := NextSerial(q.serial));
      assert DoCancelTarget(r) == r;
      Renumbered(q, r.serial);
      EnterTargetKeeps(r, surface, r.serial);
    }
  }

  lemma Renumbered(p: Pool, serial: nat)
    requires Valid(p)
    ensures Valid(p.(serial := serial))
  {
    hide Phase;
    var q := p.(serial := serial);
    forall d | d in q.devices ensures LogOk(q, d) { assert LogOk(p, d); }
  }

  lemma StartKeeps(p: Pool, src: Option<Source>, origin: Surface, mode: Mode, serial: nat)
    requires Valid(p)
    ensures Valid(DoStart(p, src, origin, mode, serial))
  {
    hide Phase, Filter, EnterTarget;
    var q := Begun(p, src, origin, mode, serial);
    BegunIsAlmostValid(p, src, origin, mode, serial);
    CancelTargetKeeps(q);
    EnterTargetKeeps(DoCancelTarget(q), Some(origin), serial);
  }

  lemma BegunIsAlmostValid(p: Pool, src: Option<Source>, origin: Surface, mode: Mode, serial: nat)
    requires Valid(p)
    ensures AlmostValid(Begun(p, src, origin, mode, serial))
  {
    hide Phase;
    var q := Begun(p, src, origin, mode, serial);
    forall d | d in q.devices ensures LogOk(q, d) { assert LogOk(p, d); }
  }

  lemma EndKeeps(p: Pool)
    requires Valid(p) && p.target == NO_TARGET
    ensures Valid(DoEnd(p)) && DoEnd(p).target == NO_TARGET
  {
    hide Phase;
    var q := DoEnd(p);
    forall d | d in q.devices ensures LogOk(q, d) { assert LogOk(p, d); }
  }

  lemma CancelKeeps(p: Pool)
    requires Valid(p)
    ensures Valid(DoCancel(p)) && DoCancel(p).target == NO_TARGET
  {
    hide DoCancelTarget, DoEnd;
    CancelTargetKeeps(p);
    EndKeeps(DoCancelTarget(p));
  }

  lemma DropKeeps(p: Pool)
    requires Valid(p)
    ensures Valid(DoDrop(p)) && DoDrop(p).target == NO_TARGET
  {
    hide DoCancelTarget, DoEnd, Dropped, LogOk;
    var q := Dropped(p);
    DroppedKeeps(p);
    CancelTargetKeeps(q);
    EndKeeps(DoCancelTarget(q));
  }

  lemma DroppedKeeps(p: Pool)
    requires Valid(p)
    ensures Valid(Dropped(p)) && AlmostValid(Dropped(p))
  {
    hide Phase;
    var q := Dropped(p);
    forall d | d in q.devices ensures LogOk(q, d) {
      assert LogOk(p, d);
      OneMore(p.logs[d], Drop);
    }
  }

  lemma ClearedKeeps(p: Pool)
    requires Valid(p)
    ensures Valid(p.(origin := NO_ORIGIN))
  {
    hide Phase;
    var q := p.(origin := NO_ORIGIN);
    forall d | d in q.devices ensures LogOk(q, d) { assert LogOk(p, d); }
  }

  lemma MotionKeeps(p: Pool)
    requires Valid(p)
    ensures Valid(DoMotion(p))
  {
    hide Phase;
    var q := DoMotion(p);
    forall d | d in q.devices ensures LogOk(q, d) {
      assert LogOk(p, d);
      OneMore(p.logs[d], Motion);
    }
  }

  lemma SourceGoneKeeps(p: Pool, source: Source)
    requires Valid(p)
    ensures Valid(DoSourceGone(p, source))
  {
    hide Phase, DoCancelTarget, DoEnd;
    var cleared := if source in p.resets then p.(origin := NO_ORIGIN) else p;
    ClearedKeeps(p);
    CancelKeeps(cleared);
    var r := if source in p.cancelling then DoCancel(cleared) else cleared;
    var q := DoSourceGone(p, source);
    forall d | d in q.devices ensures LogOk(q, d) { assert LogOk(r, d); }
    CancelledOrigin(cleared);
  }

  lemma CancelledOrigin(p: Pool)
    ensures DoCancel(p).origin == NO_ORIGIN && DoCancel(p).resets == p.resets
  {
  }

  lemma RegisterKeeps(p: Pool, d: Device)
    requires Valid(p) && d !in p.devices
    ensures Valid(DoRegister(p, d))
  {
    var q := DoRegister(p, d);
    forall x | x in q.devices ensures LogOk(q, x) {
      if x != d { assert LogOk(p, x); }
    }
  }

  lemma DeviceGoneKeeps(p: Pool, d: Device)
    requires Valid(p) && d in p.devices
    ensures Valid(DoDeviceGone(p, d))
  {
    hide Phase;
    var q := DoDeviceGone(p, d);
    RemoveOneLeaves(p.devices, d);
    RemoveOneLeaves(p.target.devices, d);
    hide RemoveOne, NoDup;
    forall x | x in q.devices ensures LogOk(q, x) { assert LogOk(p, x); }
  }

  // ---------------------------------------------------------------- runs

  datatype Op =
    | Begin(src: Option<Source>, origin: Surface, mode: Mode, serial: nat)
    | SetTarget(surface: Option<Surface>)
    | PointerMoved
    | TouchMoved(moved: nat)
    | DropDrag
    | CancelDrag
    | SurfaceGone(gone: Surface)
    | SourceGone(lost: Source)
    | Register(device: Device)
    | DeviceGone(device: Device)

  ghost predicate Enabled(p: Pool, op: Op) {
    match op
    case Register(d) => d !in p.devices
    case DeviceGone(d) => d in p.devices
    case _ => true
  }

  ghost function Step(p: Pool, op: Op): Pool {
    match op
    case Begin(src, origin, mode, serial) => DoStart(p, src, origin, mode, serial)
    case SetTarget(surface) => DoSetTarget(p, surface)
    case PointerMoved => DoPointerMoved(p)
    case TouchMoved(serial) => DoTouchMoved(p, serial)
    case DropDrag => DoDrop(p)
    case CancelDrag => DoCancel(p)
    case SurfaceGone(surface) => DoSurfaceGone(p, surface)
    case SourceGone(source) => DoSourceGone(p, source)
    case Register(d) => DoRegister(p, d)
    case DeviceGone(d) => DoDeviceGone(p, d)
  }

  lemma StepKeeps(p: Pool, op: Op)
    requires Valid(p) && Enabled(p, op)
    ensures Valid(Step(p, op))
  {
    assert AlmostValid(p);
    hide Valid, AlmostValid, DoStart, DoSetTarget, DoMotion, DoDrop, DoCancel, DoCancelTarget, DoSourceGone,
         DoRegister, DoDeviceGone;
    match op {
      case Begin(src, origin, mode, serial) => StartKeeps(p, src, origin, mode, serial);
      case SetTarget(surface) => SetTargetKeeps(p, surface);
      case PointerMoved => MotionKeeps(p);
      case TouchMoved(serial) => MotionKeeps(p);
      case DropDrag => DropKeeps(p);
      case CancelDrag => CancelKeeps(p);
      case SurfaceGone(surface) => CancelTargetKeeps(p);
      case SourceGone(source) => SourceGoneKeeps(p, source);
      case Register(d) => RegisterKeeps(p, d);
      case DeviceGone(d) => DeviceGoneKeeps(p, d);
    }
  }

  ghost function Run(p: Pool, ops: seq<Op>): (r: Option<Pool>)
    requires Valid(p)
    ensures r.Some? ==> Valid(r.value)
    decreases |ops|
  {
    if ops == [] then Some(p)
    else if !Enabled(p, ops[0]) then None
    else
      StepKeeps(p, ops[0]);
      Run(Step(p, ops[0]), ops[1..])
  }

  /** Over every run: the log of each device follows the grammar and is in an open session exactly
      while the device is a target; targets exist only under a target surface, of its client. */
  lemma DragProtocolHolds(serial: nat, ops: seq<Op>, q: Pool, d: Device)
    requires Run(Idle(serial), ops) == Some(q) && d in q.devices
    ensures d in q.logs && Phase(q.logs[d]) == Some(d in q.target.devices)
    ensures d in q.target.devices ==> q.target.surface.Some? && d.client == q.target.surface.value.client
  {
    assert LogOk(q, d);
  }

  /** After a drop or a cancellation no device is entered and nothing of the drag is left; the devices
      that were entered, and no others, got one last event. */
  lemma NobodyStaysEntered(p: Pool, drop: bool, d: Device)
    requires Valid(p) && d in p.devices
    ensures
      var q := if drop then DoDrop(p) else DoCancel(p);
      && q.target == NO_TARGET && q.origin == NO_ORIGIN
      && d in p.logs && d in q.logs && Phase(q.logs[d]) == Some(false)
      && q.logs[d] == if d !in p.target.devices then p.logs[d]
                      else p.logs[d] + [if drop then Drop else Leave]
  {
    hide Phase;
    assert LogOk(p, d);
    DropKeeps(p);
    CancelKeeps(p);
    assert LogOk(if drop then DoDrop(p) else DoCancel(p), d);
  }

  // ---------------------------------------------------------------- what a source is told and what it ends

  /** What the pool still knows of the sources dragged so far: the one of the drag in progress, the
      stored connection, the connections that cancel, and the sources dragged and not destroyed. */
  datatype Memory = Memory(src: Option<Source>, link: Option<Source>, live: multiset<Source>, dragged: set<Source>)

  function MemoryOf(p: Pool): Memory {
    Memory(p.origin.src, p.origin.cancelLink, p.cancelling, p.resets)
  }

  /** The same, read off the operations alone. A drag that begins before the last one ended keeps the
      old source's connection alive, out of reach. */
  function Remember(m: Memory, op: Op): Memory {
    match op
    case Begin(src, _, _, _) =>
      if src.None? then m.(src := None)
      else Memory(src, src, m.live + multiset{src.value}, m.dragged + {src.value})
    case DropDrag => Finished(m)
    case CancelDrag => Finished(m)
    case SourceGone(lost) =>
      if lost in m.dragged then Memory(None, None, m.live[lost := 0], m.dragged - {lost}) else m
    case _ => m
  }

  function Finished(m: Memory): Memory {
    Memory(None, None, if m.link.Some? then m.live - multiset{m.link.value} else m.live, m.dragged)
  }

  function RememberAll(m: Memory, ops: seq<Op>): Memory
    decreases |ops|
  {
    if ops == [] then m else RememberAll(Remember(m, ops[0]), ops[1..])
  }

  lemma StepIsRemembered(p: Pool, op: Op)
    requires Valid(p) && Enabled(p, op)
    ensures MemoryOf(Step(p, op)) == Remember(MemoryOf(p), op)
  {
    hide Valid, MemoryOf, Remember, DoStart, DoSetTarget, DoDrop, DoCancel, DoSourceGone, DoSurfaceGone;
    match op {
      case Begin(src, origin, mode, serial) => BeginIsRemembered(p, src, origin, mode, serial);
      case DropDrag => EndIsRemembered(p);
      case CancelDrag => EndIsRemembered(p);
      case SourceGone(lost) => GoneIsRemembered(p, lost);
      case _ => TargetIsNotRemembered(p, op);
    }
  }

  lemma BeginIsRemembered(p: Pool, src: Option<Source>, origin: Surface, mode: Mode, serial: nat)
    ensures MemoryOf(DoStart(p, src, origin, mode, serial)) == Remember(MemoryOf(p), Begin(src, origin, mode, serial))
  {
    hide Told, Filter;
  }

  lemma EndIsRemembered(p: Pool)
    ensures MemoryOf(DoDrop(p)) == MemoryOf(DoCancel(p)) == Finished(MemoryOf(p))
    ensures Remember(MemoryOf(p), DropDrag) == Remember(MemoryOf(p), CancelDrag) == Finished(MemoryOf(p))
  {
    hide Told;
  }

  lemma TargetIsNotRemembered(p: Pool, op: Op)
    requires !op.Begin? && !op.DropDrag? && !op.CancelDrag? && !op.SourceGone?
    ensures MemoryOf(Step(p, op)) == Remember(MemoryOf(p), op)
  {
    hide Told, Filter;
  }

  lemma GoneIsRemembered(p: Pool, lost: Source)
    requires Valid(p)
    ensures MemoryOf(DoSourceGone(p, lost)) == Remember(MemoryOf(p), SourceGone(lost))
  {
    hide Told, LogOk, NoDup, TargetOk;
    if lost !in p.resets {
      assert p.cancelling[lost := 0] == p.cancelling && p.resets - {lost} == p.resets;
    }
  }

  lemma {:induction false} RunIsRemembered(p: Pool, ops: seq<Op>, q: Pool)
    requires Valid(p) && Run(p, ops) == Some(q)
    ensures MemoryOf(q) == RememberAll(MemoryOf(p), ops)
    decreases |ops|
  {
    if ops != [] {
      StepKeeps(p, ops[0]);
      StepIsRemembered(p, ops[0]);
      hide Step, Valid, Enabled, MemoryOf;
      RunIsRemembered(Step(p, ops[0]), ops[1..], q);
    }
  }

  const NO_MEMORY := Memory(None, None, multiset{}, {})

  /** The living connections after any run, by the operations of the run alone: those that clear the
      origin belong to the sources dragged and not destroyed, those that cancel to the drags that were
      not ended. */
  lemma ResetsAreDragged(serial: nat, ops: seq<Op>, q: Pool)
    requires Run(Idle(serial), ops) == Some(q)
    ensures
      var m := RememberAll(NO_MEMORY, ops);
      && q.resets == m.dragged && q.cancelling == m.live && q.origin.src == m.src && q.origin.cancelLink == m.link
  {
    RunIsRemembered(Idle(serial), ops, q);
  }

  /** How often `s` was told that the drop was performed. */
  function Reports(p: Pool, s: Source): nat {
    multiset(p.toSources)[DropPerformed(s)]
  }

  lemma ReportedOnce(before: seq<SourceEvent>, e: SourceEvent, s: Source)
    ensures multiset(before + [e])[DropPerformed(s)]
         == multiset(before)[DropPerformed(s)] + One(e == DropPerformed(s))
  {
  }

  lemma EndTells(p: Pool, op: Op)
    requires op.DropDrag? || op.CancelDrag?
    ensures Step(p, op).toSources
         == p.toSources + if p.origin.src.Some? then [DropPerformed(p.origin.src.value)] else []
  {
    hide Told;
  }

  /** Any other step tells at most the source of the new drag, and of no drop. */
  lemma OtherTells(p: Pool, op: Op) returns (e: Option<Source>)
    requires Valid(p) && Enabled(p, op) && !op.DropDrag? && !op.CancelDrag?
    ensures Step(p, op).toSources == p.toSources + if e.Some? then [NoAction(e.value)] else []
  {
    hide Told, Filter, LogOk, NoDup;
    var told := Step(p, op).toSources;
    e := if told == p.toSources then None else if op.Begin? then op.src else p.origin.src;
  }

  /** The source of the drag is told that the drop was performed exactly when the drag is dropped or
      cancelled, and never when it ends with the source's own destruction. */
  lemma CancelReportsADrop(p: Pool, op: Op, s: Source)
    requires Valid(p) && Enabled(p, op)
    ensures p.toSources <= Step(p, op).toSources
    ensures Reports(Step(p, op), s)
         == Reports(p, s) + One((op.DropDrag? || op.CancelDrag?) && p.origin.src == Some(s))
  {
    if op.DropDrag? || op.CancelDrag? {
      EndTells(p, op);
      if p.origin.src.Some? { ReportedOnce(p.toSources, DropPerformed(p.origin.src.value), s); }
    } else {
      var e := OtherTells(p, op);
      if e.Some? { ReportedOnce(p.toSources, NoAction(e.value), s); }
    }
    hide Step, Valid, Enabled;
  }

  /** The drops and cancellations of a run while `s` was the source of the drag. */
  function EndsOf(m: Memory, ops: seq<Op>, s: Source): nat
    decreases |ops|
  {
    if ops == [] then 0
    else One((ops[0].DropDrag? || ops[0].CancelDrag?) && m.src == Some(s)) + EndsOf(Remember(m, ops[0]), ops[1..], s)
  }

  lemma {:induction false} RunReports(p: Pool, ops: seq<Op>, q: Pool, s: Source)
    requires Valid(p) && Run(p, ops) == Some(q)
    ensures Reports(q, s) == Reports(p, s) + EndsOf(MemoryOf(p), ops, s)
    decreases |ops|
  {
    if ops != [] {
      StepKeeps(p, ops[0]);
      StepIsRemembered(p, ops[0]);
      CancelReportsADrop(p, ops[0], s);
      hide Step, Valid, Enabled, Reports, Remember;
      RunReports(Step(p, ops[0]), ops[1..], q, s);
    }
  }

  /** After any run a source was told of as many drops as its drags were dropped or cancelled. */
  lemma ReportsAreEnds(serial: nat, ops: seq<Op>, q: Pool, s: Source)
    requires Run(Idle(serial), ops) == Some(q)
    ensures Reports(q, s) == EndsOf(NO_MEMORY, ops, s)
  {
    RunReports(Idle(serial), ops, q, s);
  }

  /** The destruction of a source that is not the current one clears a drag in progress if and only if
      that source was dragged before: its first connection outlives its own drag. */
  lemma StaleSourceClearsIff(p: Pool, source: Source)
    requires Valid(p) && p.origin != NO_ORIGIN && p.origin.src != Some(source)
    ensures DoSourceGone(p, source).origin != p.origin <==> source in p.resets
  {
    CancelledOrigin(p.(origin := NO_ORIGIN));
  }

  /** After any run that leaves a drag in progress over a surface: the destruction of a source ends the
      drag and leaves the target devices entered if and only if that source was dragged before and all
      its drags were dropped or cancelled since. */
  lemma StaleSourceLeavesTargets(serial: nat, ops: seq<Op>, p: Pool, source: Source)
    requires Run(Idle(serial), ops) == Some(p)
    requires p.target.surface.Some? && !p.origin.mode.NoDrag?
    ensures
      var m, q := RememberAll(NO_MEMORY, ops), DoSourceGone(p, source);
      && (q.target == p.target <==> source !in m.live)
      && (q.origin.mode.NoDrag? && q.target == p.target <==> source in m.dragged && source !in m.live)
  {
    ResetsAreDragged(serial, ops, p);
    hide Run, RememberAll, Told, Phase;
    GoneTargets(p, source);
  }

  lemma GoneTargets(p: Pool, source: Source)
    requires p.target.surface.Some? && !p.origin.mode.NoDrag?
    ensures
      var q := DoSourceGone(p, source);
      && (q.target == p.target <==> source !in p.cancelling)
      && (q.origin.mode.NoDrag? <==> source in p.resets || source in p.cancelling)
  {
  }

  // ---------------------------------------------------------------- a run that does both

  lemma RunOfOne(p: Pool, op: Op)
    requires Valid(p) && Enabled(p, op)
    ensures Run(p, [op]) == Some(Step(p, op)) && Valid(Step(p, op))
  {
    StepKeeps(p, op);
    hide Step, Enabled, Valid;
    assert [op][1..] == [];
  }

  lemma FirstStep(p: Pool, ops: seq<Op>)
    requires Valid(p) && ops != []
    ensures if !Enabled(p, ops[0]) then Run(p, ops).None?
            else Valid(Step(p, ops[0])) && Run(p, ops) == Run(Step(p, ops[0]), ops[1..])
  {
    hide Step, Enabled, Valid;
    if Enabled(p, ops[0]) { StepKeeps(p, ops[0]); }
  }

  lemma {:induction false} RunAppend(p: Pool, a: seq<Op>, q: Pool, b: seq<Op>)
    requires Valid(p) && Run(p, a) == Some(q)
    ensures Run(p, a + b) == Run(q, b)
    decreases |a|
  {
    if a == [] {
      assert a + b == b;
    } else {
      hide Run, Step, Enabled, Valid;
      assert (a + b)[0] == a[0] && (a + b)[1..] == a[1..] + b;
      FirstStep(p, a);
      FirstStep(p, a + b);
      RunAppend(Step(p, a[0]), a[1..], q, b);
    }
  }

  /** A run so far, and one more step. */
  lemma OneStepMore(p: Pool, ops: seq<Op>, q: Pool, op: Op)
    requires Valid(p) && Run(p, ops) == Some(q) && Enabled(q, op)
    ensures Run(p, ops + [op]) == Some(Step(q, op)) && Valid(Step(q, op))
  {
    hide Step, Enabled, Valid;
    RunOfOne(q, op);
    RunAppend(p, ops, q, [op]);
  }

  /** `d` is the only device, and it is entered by a drag of `a` from its client's surface `s`. */
  ghost predicate Dragging(p: Pool, d: Device, s: Surface, a: Source) {
    && Valid(p) && p.devices == [d] && s.client == d.client
    && p.origin.src == Some(a) && p.origin.mode == PointerDrag
    && p.target.surface == Some(s) && p.target.devices == [d]
  }

  function DragOf(d: Device, s: Surface, a: Source, serial: nat): seq<Op> {
    [Register(d)] + [Begin(Some(a), s, PointerDrag, serial)]
  }

  lemma BeginDrags(p: Pool, d: Device, s: Surface, a: Source, serial: nat)
    requires Valid(p) && p.devices == [d] && s.client == d.client
    ensures
      var q := Step(p, Begin(Some(a), s, PointerDrag, serial));
      Valid(q) && Dragging(q, d, s, a) && q.resets == p.resets + {a} && q.cancelling == p.cancelling + multiset{a}
  {
    StepKeeps(p, Begin(Some(a), s, PointerDrag, serial));
    assert [d][1..] == [];
    assert Filter([d], OfClient(s.client)) == [d];
    hide Told, Valid;
  }

  lemma DragRun(clock: nat, d: Device, s: Surface, a: Source, serial: nat) returns (q: Pool)
    requires s.client == d.client
    ensures Run(Idle(clock), DragOf(d, s, a, serial)) == Some(q) && Dragging(q, d, s, a)
    ensures q.resets == {a} && q.cancelling == multiset{a}
  {
    RunOfOne(Idle(clock), Register(d));
    var p1 := Step(Idle(clock), Register(d));
    OneStepMore(Idle(clock), [Register(d)], p1, Begin(Some(a), s, PointerDrag, serial));
    q := Step(p1, Begin(Some(a), s, PointerDrag, serial));
    hide Run, Step, Valid;
    BeginDrags(p1, d, s, a, serial);
  }

  /** A drag of `a` is dropped and one of `b` follows; then `a` is destroyed. The drag of `b` is over,
      its own source lives, and the device is left entered. */
  lemma StaleSourceRun(clock: nat, d: Device, s: Surface, a: Source, b: Source, serial: nat)
    requires s.client == d.client && a != b
    ensures
      var r := Run(Idle(clock), DragOf(d, s, a, serial) + [DropDrag] + [Begin(Some(b), s, PointerDrag, serial)]
                                + [SourceGone(a)]);
      && r.Some? && r.value.origin == NO_ORIGIN && r.value.target.devices == [d]
      && d in r.value.logs && Phase(r.value.logs[d]) == Some(true)
  {
    var q := DragRun(clock, d, s, a, serial);
    assert Valid(q);
    hide Valid, Step, Dragging;
    OneStepMore(Idle(clock), DragOf(d, s, a, serial), q, DropDrag);
    var q1 := Step(q, DropDrag);
    OneStepMore(Idle(clock), DragOf(d, s, a, serial) + [DropDrag], q1, Begin(Some(b), s, PointerDrag, serial));
    var q2 := Step(q1, Begin(Some(b), s, PointerDrag, serial));
    OneStepMore(Idle(clock), DragOf(d, s, a, serial) + [DropDrag] + [Begin(Some(b), s, PointerDrag, serial)], q2,
                SourceGone(a));
    hide Run;
    DropLeaves(q, d, s, a);
    BeginDrags(q1, d, s, b, serial);
    StaleGone(q2, d, s, a, b);
  }

  lemma DropLeaves(p: Pool, d: Device, s: Surface, a: Source)
    requires Dragging(p, d, s, a) && p.resets == {a} && p.cancelling == multiset{a}
    ensures
      var q := Step(p, DropDrag);
      q.devices == [d] && q.resets == {a} && q.cancelling == multiset{}
  {
    hide Told, LogOk, NoDup;
  }

  lemma StaleGone(p: Pool, d: Device, s: Surface, a: Source, b: Source)
    requires Valid(p) && Dragging(p, d, s, b) && a != b && p.resets == {a, b} && p.cancelling == multiset{b}
    ensures
      var q := Step(p, SourceGone(a));
      && q.origin == NO_ORIGIN && q.target.devices == [d]
      && d in q.logs && Phase(q.logs[d]) == Some(true)
  {
    assert LogOk(p, d);
    hide Phase;
  }

  // ---------------------------------------------------------------- are all devices of the client targets?

  ghost predicate Complete(p: Pool) {
    p.target.devices == ForSurface(p.target.surface, p.devices, OfClient)
  }

  /** A device that registers while its client's surface is the target. */
  ghost predicate Misses(p: Pool, op: Op) {
    op.Register? && p.target.surface.Some? && p.target.surface.value.client == op.device.client
  }

  /** The targets stay all the data devices of the target surface's client, in order, on every step but
      one: they fall short exactly when a device of that client registers meanwhile. */
  lemma TargetsFallShortIff(p: Pool, op: Op)
    requires Valid(p) && Enabled(p, op) && Complete(p)
    ensures Complete(Step(p, op)) <==> !Misses(p, op)
  {
    hide Filter, Told, Valid;
    match op {
      case Begin(src, origin, mode, serial) =>
        BegunIsAlmostValid(p, src, origin, mode, serial);
        UpdatedIsComplete(Begun(p, src, origin, mode, serial), Some(origin), serial);
      case SetTarget(surface) =>
        if surface != p.target.surface {
          UnfinishedIsAlmostValid(p);
          UpdatedIsComplete(DoCancelTarget(p).(serial := NextSerial(p.serial)), surface, NextSerial(p.serial));
        }
      case Register(d) =>
        AddedForSurface(p.target.surface, p.devices, d, OfClient);
      case DeviceGone(d) => DeviceGoneStaysComplete(p, d);
      case _ =>
    }
  }

  /** A run that does it: the second device of the client registers during the drag. */
  lemma TargetsFallShortRun(clock: nat, d: Device, late: Device, s: Surface, a: Source, serial: nat)
    requires s.client == d.client == late.client && d != late
    ensures
      var r := Run(Idle(clock), DragOf(d, s, a, serial) + [Register(late)]);
      && r.Some? && !Complete(r.value)
      && r.value.target.devices == [d] && late in r.value.logs && r.value.logs[late] == []
  {
    var q := DragRun(clock, d, s, a, serial);
    OneStepMore(Idle(clock), DragOf(d, s, a, serial), q, Register(late));
    hide Run, Valid;
    AddedForSurface(Some(s), [d], late, OfClient);
  }

  lemma UnfinishedIsAlmostValid(p: Pool)
    requires Valid(p)
    ensures AlmostValid(DoCancelTarget(p).(serial := NextSerial(p.serial)))
  {
    CancelTargetKeeps(p);
    Renumbered(DoCancelTarget(p), NextSerial(p.serial));
    hide LogOk, DoCancelTarget;
  }

  lemma UpdatedIsComplete(p: Pool, surface: Option<Surface>, serial: nat)
    requires AlmostValid(p)
    ensures Complete(DoUpdateTarget(p, surface, serial)) && DoUpdateTarget(p, surface, serial).devices == p.devices
    ensures DoUpdateTarget(p, surface, serial).target.surface == surface
  {
    CancelTargetKeeps(p);
    hide Filter, Told, Valid, AlmostValid;
    var q := DoCancelTarget(p);
    assert q.target.devices + ForSurface(surface, p.devices, OfClient) == ForSurface(surface, p.devices, OfClient);
  }

  lemma DeviceGoneStaysComplete(p: Pool, d: Device)
    requires Valid(p) && Complete(p)
    ensures Complete(DoDeviceGone(p, d))
  {
    hide LogOk;
    RemoveOneIsWithout(p.devices, d);
    RemoveOneIsWithout(p.target.devices, d);
    if p.target.surface.Some? { FilterWithout(p.devices, d, OfClient(p.target.surface.value.client)); }
  }

  // ---------------------------------------------------------------- the program

  class Device {
    const client: nat
    var log: seq<Event>

    constructor (client: nat)
      ensures this.client == client && log == []
    {
      this.client, log := client, [];
    }

    method Send(e: Event)
      modifies this
      ensures log == old(log) + [e]
    {
      log := log + [e];
    }
  }

  ghost function LogsOf(devices: seq<Device>): map<Device, seq<Event>>
    reads devices
  {
    map d | d in devices :: d.log
  }

  class DragPool {
    var origin: Origin
    var target: Target
    var devices: seq<Device>
    var toSources: seq<SourceEvent>
    var resets: set<Source>
    var cancelling: multiset<Source>
    /** The display's serial counter. */
    var serial: nat

    ghost function Snap(): Pool
      reads this, devices
    {
      Pool(origin, target, devices, LogsOf(devices), toSources, resets, cancelling, serial)
    }

    constructor (serial: nat)
      ensures Snap() == Idle(serial)
    {
      origin, target, devices, toSources := NO_ORIGIN, NO_TARGET, [], [];
      resets, cancelling, this.serial := {}, multiset{}, serial;
    }

    method ForEachTargetDevice(e: Event)
      requires NoDup(target.devices) && forall d :: d in target.devices ==> d in devices
      modifies devices
      ensures unchanged(this)
      ensures LogsOf(devices) == Told(old(LogsOf(devices)), target.devices, e)
    {
      ghost var before := LogsOf(devices);
      var list := target.devices;
      for i := 0 to |list|
        invariant forall d :: d in devices ==> d.log == if d in list[..i] then before[d] + [e] else before[d]
      {
        assert list[..i + 1] == list[..i] + [list[i]];
        assert list[i] in list;
        list[i].Send(e);
      }
      assert list[..|list|] == list;
    }

    method CancelTarget()
      requires AlmostValid(Snap())
      modifies this, devices
      ensures Snap() == DoCancelTarget(old(Snap()))
    {
      assert NoDup(target.devices) && forall d :: d in target.devices ==> d in devices;
      hide AlmostValid, LogsOf, Told, NoDup;
      if target.surface.None? { return; }
      ForEachTargetDevice(Leave);
      ghost var logs := LogsOf(devices);
      target := target.(devices := [], motion := NoDrag, surface := None);
      assert LogsOf(devices) == logs;
    }

    method UpdateTarget(surface: Option<Surface>, serial: nat)
      requires AlmostValid(Snap())
      modifies this, devices
      ensures Snap() == DoUpdateTarget(old(Snap()), surface, serial)
    {
      CancelTargetKeeps(Snap());
      hide Valid, AlmostValid, DoCancelTarget, EnterTarget;
      CancelTarget();
      JoinTarget(surface, serial);
    }

    /** The devices of the surface become targets and are entered. */
    method JoinTarget(surface: Option<Surface>, serial: nat)
      requires Valid(Snap()) && target == NO_TARGET
      modifies this, devices
      ensures Snap() == EnterTarget(old(Snap()), surface, serial)
    {
      assert NoDup(devices);
      hide Valid, LogsOf, Told, NoDup, Filter;
      ghost var logs := LogsOf(devices);
      var list := ForSurface(surface, devices, OfClient);
      if surface.None? || list == [] {
        if origin.src.Some? { toSources := toSources + [NoAction(origin.src.value)]; }
        if surface.None? {
          assert LogsOf(devices) == logs;
          return;
        }
      }
      target := target.(devices := target.devices + list, surface := surface);
      SetupMotion();
      assert LogsOf(devices) == logs;
      assert target.devices == list;
      UpdateOffer(serial);
    }

    method SetupMotion()
      modifies this`target
      ensures target == old(target).(motion := if origin.mode.NoDrag? then old(target).motion else origin.mode)
    {
      if origin.mode.PointerDrag? { target := target.(motion := PointerDrag); }
      else if origin.mode.TouchDrag? { target := target.(motion := TouchDrag); }
    }

    method UpdateOffer(serial: nat)
      requires target.surface.Some?
      requires NoDup(target.devices) && forall d :: d in target.devices ==> d in devices
      modifies devices
      ensures unchanged(this)
      ensures LogsOf(devices) == Told(old(LogsOf(devices)), target.devices, Enter(serial, target.surface.value))
    {
      ForEachTargetDevice(Enter(serial, target.surface.value));
    }

    method SetTarget(surface: Option<Surface>)
      requires Valid(Snap())
      modifies this, devices
      ensures Snap() == DoSetTarget(old(Snap()), surface)
    {
      assert AlmostValid(Snap());
      CancelTargetKeeps(Snap());
      if surface == target.surface { return; }
      Renumbered(DoCancelTarget(Snap()), NextSerial(serial));
      assert Valid(DoCancelTarget(Snap())) ==> AlmostValid(DoCancelTarget(Snap()).(serial := NextSerial(serial)));
      hide Valid, AlmostValid, DoCancelTarget, DoUpdateTarget, LogsOf;
      CancelTarget();
      ghost var logs := LogsOf(devices);
      serial := NextSerial(serial);
      assert LogsOf(devices) == logs;
      UpdateTarget(surface, serial);
    }

    method Start(src: Option<Source>, surface: Surface, mode: Mode, serial: nat)
      requires Valid(Snap())
      modifies this, devices
      ensures Snap() == DoStart(old(Snap()), src, surface, mode, serial)
    {
      BegunIsAlmostValid(Snap(), src, surface, mode, serial);
      hide Valid, AlmostValid, DoUpdateTarget, LogsOf;
      ghost var logs := LogsOf(devices);
      origin := origin.(mode := mode, src := src, surface := Some(surface), serial := serial);
      if src.Some? {
        resets := resets + {src.value};
        cancelling := cancelling + multiset{src.value};
        origin := origin.(cancelLink := src);
      }
      target := target.(surface := origin.surface);
      assert LogsOf(devices) == logs;
      UpdateTarget(origin.surface, serial);
    }

    method End()
      modifies this
      ensures Snap() == DoEnd(old(Snap()))
    {
      hide LogsOf;
      ghost var logs := LogsOf(devices);
      if origin.cancelLink.Some? { cancelling := cancelling - multiset{origin.cancelLink.value}; }
      if origin.src.Some? { toSources := toSources + [DropPerformed(origin.src.value)]; }
      origin, target := NO_ORIGIN, NO_TARGET;
      assert LogsOf(devices) == logs;
    }

    method Cancel()
      requires Valid(Snap())
      modifies this, devices
      ensures Snap() == DoCancel(old(Snap()))
    {
      assert AlmostValid(Snap());
      hide Valid, AlmostValid, DoCancelTarget, DoEnd;
      CancelTarget();
      End();
    }

    method Drop()
      requires Valid(Snap())
      modifies this, devices
      ensures Snap() == DoDrop(old(Snap()))
    {
      DroppedKeeps(Snap());
      assert NoDup(target.devices) && forall d :: d in target.devices ==> d in devices;
      hide Valid, AlmostValid, DoCancelTarget, DoEnd, LogsOf, Told, NoDup;
      ForEachTargetDevice(Event.Drop);
      ghost var logs := LogsOf(devices);
      target := target.(devices := []);
      assert LogsOf(devices) == logs;
      CancelTarget();
      End();
    }

    /** The motion notifiers of a pointer and of a touch drag. */
    method PointerMoved()
      requires Valid(Snap())
      modifies devices
      ensures Snap() == DoPointerMoved(old(Snap()))
    {
      assert NoDup(target.devices) && forall d :: d in target.devices ==> d in devices;
      hide Valid, LogsOf, Told;
      if target.motion.PointerDrag? { ForEachTargetDevice(Motion); }
    }

    method TouchMoved(serial: nat)
      requires Valid(Snap())
      modifies devices
      ensures Snap() == DoTouchMoved(old(Snap()), serial)
    {
      assert NoDup(target.devices) && forall d :: d in target.devices ==> d in devices;
      hide Valid, LogsOf, Told;
      if target.motion.TouchDrag? && serial == origin.serial { ForEachTargetDevice(Motion); }
    }

    method SurfaceDestroyed(surface: Surface)
      requires Valid(Snap())
      modifies this, devices
      ensures Snap() == DoSurfaceGone(old(Snap()), surface)
    {
      assert AlmostValid(Snap());
      hide Valid, AlmostValid, DoCancelTarget;
      if target.surface == Some(surface) { CancelTarget(); }
    }

    method SourceDestroyed(source: Source)
      requires Valid(Snap())
      modifies this, devices
      ensures Snap() == DoSourceGone(old(Snap()), source)
    {
      hide Valid, DoCancel, LogsOf;
      ClearedKeeps(Snap());
      ghost var logs := LogsOf(devices);
      if source in resets { origin := NO_ORIGIN; }
      assert LogsOf(devices) == logs;
      if source in cancelling { Cancel(); }
      ghost var after := LogsOf(devices);
      resets := resets - {source};
      cancelling := cancelling[source := 0];
      assert LogsOf(devices) == after;
    }

    method RegisterDevice(device: Device)
      requires device !in devices && device.log == []
      modifies this
      ensures Snap() == DoRegister(old(Snap()), device)
    {
      AddedLog(devices, device);
      devices := devices + [device];
    }

    lemma AddedLog(devices: seq<Device>, device: Device)
      ensures LogsOf(devices + [device]) == LogsOf(devices)[device := device.log]
    {
    }

    method DeviceDestroyed(device: Device)
      requires Valid(Snap()) && device in devices
      modifies this
      ensures Snap() == DoDeviceGone(old(Snap()), device)
    {
      hide LogOk, RemoveOne, NoDup, LogsOf;
      DroppedLog(devices, device);
      hide Valid;
      devices := RemoveOne(devices, device);
      target := target.(devices := RemoveOne(target.devices, device));
    }

    lemma DroppedLog(devices: seq<Device>, device: Device)
      requires NoDup(devices)
      ensures LogsOf(RemoveOne(devices, device)) == LogsOf(devices) - {device}
    {
      hide RemoveOne, NoDup;
      RemoveOneLeaves(devices, device);
      var rest := RemoveOne(devices, device);
      assert LogsOf(rest).Keys == LogsOf(devices).Keys - {device};
    }
  }
}
