/** The keyboards of a seat: the pool keeps the focus, the pressed keys, the modifiers and the keymap,
    and tells every focused keyboard what changes. A client that knows only the events it was sent
    must end up with the pool's own view. */
module KeyboardFocus {
  import opened Seqs
  import opened Devices

  // ---------------------------------------------------------------- values

  datatype KeyState = Released | Pressed

  datatype Modifiers = Modifiers(depressed: nat, latched: nat, locked: nat, group: nat, serial: nat)

  datatype Event =
    | KeymapSent(keymap: nat)
    | RepeatSent(rate: int, delay: int)
    | Enter(serial: nat, surface: Surface, keys: set<nat>)
    | Leave(serial: nat, surface: Surface)
    | KeySent(serial: nat, key: nat, state: KeyState)
    | ModifiersSent(modifiers: Modifiers)

  /** The protocol version from which a keyboard is told the repeat rate. */
  const REPEAT_SINCE: nat := 4

  /** What one keyboard object holds, and what it sent so far. */
  datatype Board = Board(focused: Option<Surface>, needsKeymap: bool, log: seq<Event>)

  datatype Focus = Focus(surface: Option<Surface>, devices: seq<Keyboard>, serial: nat)

  const NO_FOCUS := Focus(None, [], 0)

  datatype Pool = Pool(
    keymap: Option<nat>,
    focus: Focus,
    modifiers: Modifiers,
    rate: int,
    delay: int,
    states: map<nat, KeyState>,
    lastStateSerial: nat,
    devices: seq<Keyboard>,
    boards: map<Keyboard, Board>,
    serial: nat)

  ghost function Start(serial: nat): (p: Pool)
    ensures Valid(p)
  {
    Pool(None, NO_FOCUS, Modifiers(0, 0, 0, 0, 0), 0, 0, map[], 0, [], map[], serial)
  }

  ghost function PressedIn(states: map<nat, KeyState>): set<nat> {
    set k | k in states && states[k].Pressed?
  }

  function OfClient(client: nat): Keyboard -> bool {
    (d: Keyboard) => d.client == client
  }

  // ---------------------------------------------------------------- one keyboard

  /** What the pool asks of a keyboard. */
  datatype Call =
    | Tell(event: Event)
    | Repeat(rate: int, delay: int)
    | GiveKeymap(keymap: nat)
    | MarkForKeymap
    | CatchUp(latest: Option<nat>)
    | SetFocus(serial: nat, surface: Option<Surface>, keys: set<nat>, modifiers: Modifiers)

  function Say(b: Board, e: Event): Board {
    b.(log := b.log + [e])
  }

  ghost function Answer(d: Keyboard, b: Board, call: Call): Board {
    match call
    case Tell(e) => Say(b, e)
    case Repeat(rate, delay) => if d.version >= REPEAT_SINCE then Say(b, RepeatSent(rate, delay)) else b
    case GiveKeymap(k) => Say(b, KeymapSent(k)).(needsKeymap := false)
    case MarkForKeymap => b.(needsKeymap := true)
    case CatchUp(latest) =>
      if b.needsKeymap && latest.Some? then Say(b, KeymapSent(latest.value)).(needsKeymap := false) else b
    case SetFocus(serial, surface, keys, modifiers) =>
      var left := if b.focused.Some? then Say(b, Leave(serial, b.focused.value)) else b;
      var moved := left.(focused := surface);
      if surface.None? then moved
      else Say(Say(moved, Enter(serial, surface.value, keys)), ModifiersSent(modifiers))
  }

  ghost function Each(boards: map<Keyboard, Board>, list: seq<Keyboard>, call: Call): map<Keyboard, Board> {
    map d | d in boards :: if d in list then Answer(d, boards[d], call) else boards[d]
  }

  /** The keyboards of a destroyed surface each draw a serial of their own for the leave event. */
  ghost function Deserted(boards: map<Keyboard, Board>, list: seq<Keyboard>, serial: nat): map<Keyboard, Board>
    requires forall d :: d in list ==> d in boards && boards[d].focused.Some?
    requires NoDup(list)
  {
    map d | d in boards ::
      if d in list
      then Say(boards[d], Leave(Later(serial, IndexOf(list, d) + 1), boards[d].focused.value)).(focused := None)
      else boards[d]
  }

  /** The display's serial after `n` more draws. */
  function Later(serial: nat, n: nat): nat
    decreases n
  {
    if n == 0 then serial else NextSerial(Later(serial, n - 1))
  }

  // ---------------------------------------------------------------- the pool

  ghost function DoCreate(p: Pool, d: Keyboard): Pool {
    var blank := Answer(d, Board(None, true, []), Repeat(p.rate, p.delay));
    var q := p.(devices := p.devices + [d]);
    if p.focus.surface.Some? && p.focus.surface.value.client == d.client then
      var given := if p.keymap.Some? then Answer(d, blank, GiveKeymap(p.keymap.value)) else blank;
      var entered := Answer(d, given, SetFocus(p.focus.serial, p.focus.surface, PressedIn(p.states), p.modifiers));
      q.(focus := p.focus.(devices := p.focus.devices + [d]), boards := p.boards[d := entered])
    else q.(boards := p.boards[d := blank])
  }

  ghost function DoDestroy(p: Pool, d: Keyboard): Pool {
    p.(devices := RemoveOne(p.devices, d),
       focus := p.focus.(devices := RemoveOne(p.focus.devices, d)),
       boards := p.boards - {d})
  }

  ghost function DoKey(p: Pool, key: nat, state: KeyState): Pool {
    var serial := NextSerial(p.serial);
    var q := p.(serial := serial, lastStateSerial := serial);
    if key in p.states && p.states[key] == state then q
    else
      var r := q.(states := p.states[key := state]);
      if p.focus.surface.None? then r
      else r.(boards := Each(p.boards, p.focus.devices, Tell(KeySent(serial, key, state))))
  }

  ghost function DoModifiers(p: Pool, depressed: nat, latched: nat, locked: nat, group: nat): Pool {
    if p.modifiers == Modifiers(depressed, latched, locked, group, p.modifiers.serial) then p
    else
      var serial := NextSerial(p.serial);
      var mods := Modifiers(depressed, latched, locked, group, serial);
      var q := p.(serial := serial, modifiers := mods);
      if p.focus.surface.None? then q
      else q.(boards := Each(p.boards, p.focus.devices, Tell(ModifiersSent(mods))))
  }

  ghost function DoSetFocus(p: Pool, surface: Option<Surface>): Pool {
    var serial := NextSerial(p.serial);
    var keys := PressedIn(p.states);
    var left := Each(p.boards, p.focus.devices, SetFocus(serial, None, keys, p.modifiers));
    var list := ForSurface(surface, p.devices, OfClient);
    var caughtUp := Each(left, list, CatchUp(p.keymap));
    p.(serial := serial,
       focus := if surface.Some? then Focus(surface, list, serial) else NO_FOCUS,
       boards := Each(caughtUp, list, SetFocus(serial, surface, keys, p.modifiers)))
  }

  ghost function DoSetKeymap(p: Pool, keymap: Option<nat>): Pool {
    if p.keymap == keymap then p
    else
      var marked := Each(p.boards, p.devices, MarkForKeymap);
      p.(keymap := keymap,
         boards := if keymap.Some? then Each(marked, p.focus.devices, GiveKeymap(keymap.value)) else marked)
  }

  ghost function DoSetRepeat(p: Pool, rate: int, delay: int): Pool {
    var r, d := if rate > 0 then rate else 0, if delay > 0 then delay else 0;
    p.(rate := r, delay := d, boards := Each(p.boards, p.devices, Repeat(r, d)))
  }

  /** A surface goes away: its keyboards leave it and the pool forgets its focus. */
  ghost function DoSurfaceGone(p: Pool, surface: Surface): Pool
    requires Valid(p)
  {
    if p.focus.surface != Some(surface) then p
    else
      assert forall d :: d in p.focus.devices ==> BoardOk(p, d);
      p.(serial := Later(p.serial, |p.focus.devices|),
         focus := NO_FOCUS,
         boards := Deserted(p.boards, p.focus.devices, p.serial))
  }

  // ---------------------------------------------------------------- the client's view

  /** What a client knows that has read the events of one keyboard. */
  datatype View = View(
    focus: Option<Surface>,
    keys: set<nat>,
    modifiers: Option<Modifiers>,
    keymap: Option<nat>,
    repeat: Option<(int, int)>)

  const BLANK := View(None, {}, None, None, None)

  function Saw(v: View, e: Event): View {
    match e
    case KeymapSent(k) => v.(keymap := Some(k))
    case RepeatSent(rate, delay) => v.(repeat := Some((rate, delay)))
    case Enter(_, surface, keys) => v.(focus := Some(surface), keys := keys, modifiers := None)
    case Leave(_, _) => v.(focus := None, keys := {}, modifiers := None)
    case KeySent(_, key, state) => v.(keys := if state.Pressed? then v.keys + {key} else v.keys - {key})
    case ModifiersSent(mods) => v.(modifiers := Some(mods))
  }

  /** The protocol: enter and leave alternate, keys and modifiers reach a focused keyboard only, a
      key event comes after the modifiers that follow enter, and no key is pressed twice. */
  predicate Legal(v: View, e: Event) {
    match e
    case Enter(_, _, _) => v.focus.None?
    case Leave(_, surface) => v.focus == Some(surface)
    case KeySent(_, key, state) => v.focus.Some? && v.modifiers.Some? && (state.Pressed? ==> key !in v.keys)
    case ModifiersSent(_) => v.focus.Some?
    case KeymapSent(_) => true
    case RepeatSent(_, _) => true
  }

  function See(log: seq<Event>): View {
    if log == [] then BLANK else Saw(See(log[..|log| - 1]), log[|log| - 1])
  }

  predicate Lawful(log: seq<Event>) {
    log == [] || (Lawful(log[..|log| - 1]) && Legal(See(log[..|log| - 1]), log[|log| - 1]))
  }

  lemma OneMore(log: seq<Event>, e: Event)
    ensures See(log + [e]) == Saw(See(log), e)
    ensures Lawful(log + [e]) <==> Lawful(log) && Legal(See(log), e)
  {
    assert (log + [e])[..|log|] == log;
  }

  lemma NothingSeen()
    ensures Lawful([]) && See([]) == BLANK
  {
  }

  /** Between two enter events there is a leave event, whatever else happens. */
  lemma {:induction false} EnterAndLeaveAlternate(log: seq<Event>, i: nat, j: nat)
    requires Lawful(log) && i < j < |log| && log[i].Enter? && log[j].Enter?
    ensures exists k :: i < k < j && log[k].Leave?
  {
    LawfulPrefix(log, j + 1);
    LawfulPrefix(log, j);
    assert log[..j + 1][..j] == log[..j];
    FocusedSince(log, i, j);
  }

  lemma {:induction false} LawfulPrefix(log: seq<Event>, n: nat)
    requires Lawful(log) && n <= |log|
    ensures Lawful(log[..n])
  {
    if n < |log| {
      LawfulPrefix(log[..|log| - 1], n);
      assert log[..|log| - 1][..n] == log[..n];
    } else {
      assert log[..n] == log;
    }
  }

  lemma {:induction false} FocusedSince(log: seq<Event>, i: nat, j: nat)
    requires i < j <= |log| && log[i].Enter?
    ensures See(log[..j]).focus.Some? || exists k :: i < k < j && log[k].Leave?
  {
    assert log[..j][..j - 1] == log[..j - 1];
    if i < j - 1 { FocusedSince(log, i, j - 1); }
  }

  // ---------------------------------------------------------------- what every run keeps

  ghost predicate BoardOk(p: Pool, d: Keyboard) {
    && d in p.boards
    && Agrees(p, d in p.focus.devices, d.version, p.boards[d], See(p.boards[d].log))
    && Lawful(p.boards[d].log)
  }

  /** `v`, read off the events alone, is the pool's own view of a keyboard that is in focus or not. */
  ghost predicate Agrees(p: Pool, inFocus: bool, version: nat, b: Board, v: View) {
    && v.focus == b.focused == (if inFocus then p.focus.surface else None)
    && (inFocus ==> b.focused.Some? && v.keys == PressedIn(p.states) && v.modifiers == Some(p.modifiers))
    && (inFocus && p.keymap.Some? ==> !b.needsKeymap)
    && (!b.needsKeymap ==> p.keymap.Some? && v.keymap == p.keymap)
    && (version >= REPEAT_SINCE ==> v.repeat == Some((p.rate, p.delay)))
  }

  ghost predicate Valid(p: Pool) {
    && NoDup(p.devices)
    && p.boards.Keys == (set d | d in p.devices)
    && p.focus.devices == ForSurface(p.focus.surface, p.devices, OfClient)
    && (forall d {:trigger BoardOk(p, d)} :: d in p.devices ==> BoardOk(p, d))
  }

  // ---------------------------------------------------------------- what one answer does to the view

  lemma Told(b: Board, e: Event)
    requires Lawful(b.log) && Legal(See(b.log), e)
    ensures Lawful(Say(b, e).log) && See(Say(b, e).log) == Saw(See(b.log), e)
  {
    OneMore(b.log, e);
  }

  /** Entering or leaving a surface keeps to the protocol and leaves the client with what was sent. */
  lemma Refocused(d: Keyboard, b: Board, serial: nat, surface: Option<Surface>, keys: set<nat>, mods: Modifiers)
    requires Lawful(b.log) && See(b.log).focus == b.focused
    ensures
      var r := Answer(d, b, SetFocus(serial, surface, keys, mods));
      && Lawful(r.log) && r.focused == surface == See(r.log).focus && r.needsKeymap == b.needsKeymap
      && See(r.log).keymap == See(b.log).keymap && See(r.log).repeat == See(b.log).repeat
      && (surface.Some? ==> See(r.log).keys == keys && See(r.log).modifiers == Some(mods))
  {
    hide See, Lawful;
    var left := if b.focused.Some? then Say(b, Leave(serial, b.focused.value)) else b;
    if b.focused.Some? { Told(b, Leave(serial, b.focused.value)); }
    if surface.Some? {
      var moved := left.(focused := surface);
      var entered := Say(moved, Enter(serial, surface.value, keys));
      Told(moved, Enter(serial, surface.value, keys));
      Told(entered, ModifiersSent(mods));
    }
  }

  /** Giving the keymap, or giving it only where it is needed, changes nothing else of the view. */
  lemma KeymapGiven(d: Keyboard, b: Board, keymap: nat)
    requires Lawful(b.log)
    ensures
      var r := Answer(d, b, GiveKeymap(keymap));
      Lawful(r.log) && See(r.log) == See(b.log).(keymap := Some(keymap)) && !r.needsKeymap && r.focused == b.focused
  {
    Told(b, KeymapSent(keymap));
  }

  lemma CaughtUp(d: Keyboard, b: Board, latest: Option<nat>)
    requires Lawful(b.log)
    ensures
      var r := Answer(d, b, CatchUp(latest));
      && Lawful(r.log) && r.focused == b.focused
      && if b.needsKeymap && latest.Some?
         then See(r.log) == See(b.log).(keymap := latest) && !r.needsKeymap
         else r == b
  {
    if b.needsKeymap && latest.Some? { KeymapGiven(d, b, latest.value); }
  }

  lemma Repeated(d: Keyboard, b: Board, rate: int, delay: int)
    requires Lawful(b.log)
    ensures
      var r := Answer(d, b, Repeat(rate, delay));
      && Lawful(r.log) && r.focused == b.focused && r.needsKeymap == b.needsKeymap
      && See(r.log) == if d.version >= REPEAT_SINCE then See(b.log).(repeat := Some((rate, delay))) else See(b.log)
  {
    if d.version >= REPEAT_SINCE { Told(b, RepeatSent(rate, delay)); }
  }

  lemma CreateKeeps(p: Pool, d: Keyboard)
    requires Valid(p) && d !in p.devices
    ensures Valid(DoCreate(p, d))
  {
    hide Answer, See, Lawful, PressedIn, Agrees, BoardOk, Filter, ForSurface;
    var q := DoCreate(p, d);
    AddedForSurface(p.focus.surface, p.devices, d, OfClient);
    forall x | x in q.devices ensures BoardOk(q, x) {
      if x == d {
        CreatedAgrees(p, d);
      } else {
        assert BoardOk(p, x);
        SameAgrees(p, q, x);
      }
    }
  }

  /** A keyboard that a step does not tell anything still agrees when nothing it knows has changed. */
  lemma SameAgrees(p: Pool, q: Pool, x: Keyboard)
    requires BoardOk(p, x) && x in q.boards && q.boards[x] == p.boards[x]
    requires x in q.focus.devices <==> x in p.focus.devices
    requires x in p.focus.devices ==>
      q.focus.surface == p.focus.surface && q.states == p.states && q.modifiers == p.modifiers
    requires q.keymap == p.keymap && q.rate == p.rate && q.delay == p.delay
    ensures BoardOk(q, x)
  {
  }

  lemma CreatedAgrees(p: Pool, d: Keyboard)
    requires Valid(p) && d !in p.devices
    ensures BoardOk(DoCreate(p, d), d)
  {
    hide Answer, Lawful, See, PressedIn, Filter, NoDup;
    var start := Board(None, true, []);
    NothingSeen();
    var blank := Answer(d, start, Repeat(p.rate, p.delay));
    Repeated(d, start, p.rate, p.delay);
    if p.focus.surface.Some? && p.focus.surface.value.client == d.client {
      var given := if p.keymap.Some? then Answer(d, blank, GiveKeymap(p.keymap.value)) else blank;
      if p.keymap.Some? { KeymapGiven(d, blank, p.keymap.value); }
      Refocused(d, given, p.focus.serial, p.focus.surface, PressedIn(p.states), p.modifiers);
    }
  }

  lemma DestroyKeeps(p: Pool, d: Keyboard)
    requires Valid(p) && d in p.devices
    ensures Valid(DoDestroy(p, d))
  {
    assert NoDup(p.focus.devices);
    hide See, Lawful, PressedIn, Agrees, BoardOk, RemoveOne, Filter, ForSurface;
    var q := DoDestroy(p, d);
    RemoveOneIsWithout(p.devices, d);
    RemoveOneIsWithout(p.focus.devices, d);
    RemovedForSurface(p.focus.surface, p.devices, d, OfClient);
    forall x | x in q.devices ensures BoardOk(q, x) {
      assert BoardOk(p, x);
      SameAgrees(p, q, x);
    }
  }

  lemma KeyKeeps(p: Pool, key: nat, state: KeyState)
    requires Valid(p)
    ensures Valid(DoKey(p, key, state))
  {
    hide See, Lawful, PressedIn, Agrees, BoardOk;
    var q := DoKey(p, key, state);
    forall x | x in q.devices ensures BoardOk(q, x) {
      assert BoardOk(p, x);
      KeyAgrees(p, key, state, x);
    }
  }

  lemma KeyAgrees(p: Pool, key: nat, state: KeyState, x: Keyboard)
    requires BoardOk(p, x)
    requires x in p.focus.devices ==> p.focus.surface.Some?
    ensures BoardOk(DoKey(p, key, state), x)
  {
    hide See, Lawful;
    var q := DoKey(p, key, state);
    if !(key in p.states && p.states[key] == state) && x in p.focus.devices {
      assert PressedIn(q.states)
          == if state.Pressed? then PressedIn(p.states) + {key} else PressedIn(p.states) - {key};
      Told(p.boards[x], KeySent(q.serial, key, state));
    }
  }

  lemma ModifiersKeeps(p: Pool, depressed: nat, latched: nat, locked: nat, group: nat)
    requires Valid(p)
    ensures Valid(DoModifiers(p, depressed, latched, locked, group))
  {
    hide See, Lawful, PressedIn;
    var q := DoModifiers(p, depressed, latched, locked, group);
    forall x | x in q.devices ensures BoardOk(q, x) {
      assert BoardOk(p, x);
      if q != p && x in p.focus.devices { Told(p.boards[x], ModifiersSent(q.modifiers)); }
    }
  }

  lemma SetFocusKeeps(p: Pool, surface: Option<Surface>)
    requires Valid(p)
    ensures Valid(DoSetFocus(p, surface))
  {
    hide BoardOk, Answer;
    var q := DoSetFocus(p, surface);
    forall x | x in q.devices ensures BoardOk(q, x) { RefocusedAgrees(p, surface, x); }
  }

  lemma RefocusedAgrees(p: Pool, surface: Option<Surface>, x: Keyboard)
    requires Valid(p) && x in p.devices
    ensures BoardOk(DoSetFocus(p, surface), x)
  {
    hide See, Lawful, PressedIn, Answer;
    assert BoardOk(p, x);
    var serial, keys := NextSerial(p.serial), PressedIn(p.states);
    var b := p.boards[x];
    Refocused(x, b, serial, None, keys, p.modifiers);
    var left := if x in p.focus.devices then Answer(x, b, SetFocus(serial, None, keys, p.modifiers)) else b;
    CaughtUp(x, left, p.keymap);
    Refocused(x, Answer(x, left, CatchUp(p.keymap)), serial, surface, keys, p.modifiers);
  }

  lemma SetKeymapKeeps(p: Pool, keymap: Option<nat>)
    requires Valid(p)
    ensures Valid(DoSetKeymap(p, keymap))
  {
    hide See, Lawful, PressedIn;
    var q := DoSetKeymap(p, keymap);
    forall x | x in q.devices ensures BoardOk(q, x) {
      assert BoardOk(p, x);
      if keymap.Some? { KeymapGiven(x, p.boards[x].(needsKeymap := true), keymap.value); }
    }
  }

  lemma SetRepeatKeeps(p: Pool, rate: int, delay: int)
    requires Valid(p)
    ensures Valid(DoSetRepeat(p, rate, delay))
  {
    hide See, Lawful, PressedIn, Answer;
    var q := DoSetRepeat(p, rate, delay);
    forall x | x in q.devices ensures BoardOk(q, x) {
      assert BoardOk(p, x);
      Repeated(x, p.boards[x], q.rate, q.delay);
    }
  }

  lemma SurfaceGoneKeeps(p: Pool, surface: Surface)
    requires Valid(p)
    ensures Valid(DoSurfaceGone(p, surface))
  {
    hide See, Lawful, PressedIn;
    var q := DoSurfaceGone(p, surface);
    forall x | x in q.devices ensures BoardOk(q, x) {
      assert BoardOk(p, x);
      if p.focus.surface == Some(surface) && x in p.focus.devices {
        Told(p.boards[x], Leave(Later(p.serial, IndexOf(p.focus.devices, x) + 1), surface));
      }
    }
  }

  // ---------------------------------------------------------------- runs

  datatype Op =
    | Create(device: Keyboard)
    | Destroy(device: Keyboard)
    | Key(key: nat, state: KeyState)
    | UpdateModifiers(depressed: nat, latched: nat, locked: nat, group: nat)
    | SetFocusedSurface(surface: Option<Surface>)
    | SurfaceGone(gone: Surface)
    | SetKeymap(keymap: Option<nat>)
    | SetRepeatInfo(rate: int, delay: int)

  /** Only a new keyboard is created and only a living one destroyed. */
  ghost predicate Enabled(p: Pool, op: Op) {
    match op
    case Create(d) => d !in p.devices
    case Destroy(d) => d in p.devices
    case _ => true
  }

  ghost function Step(p: Pool, op: Op): Pool
    requires Valid(p)
  {
    match op
    case Create(d) => DoCreate(p, d)
    case Destroy(d) => DoDestroy(p, d)
    case Key(key, state) => DoKey(p, key, state)
    case UpdateModifiers(depressed, latched, locked, group) => DoModifiers(p, depressed, latched, locked, group)
    case SetFocusedSurface(surface) => DoSetFocus(p, surface)
    case SurfaceGone(surface) => DoSurfaceGone(p, surface)
    case SetKeymap(keymap) => DoSetKeymap(p, keymap)
    case SetRepeatInfo(rate, delay) => DoSetRepeat(p, rate, delay)
  }

  lemma StepKeeps(p: Pool, op: Op)
    requires Valid(p) && Enabled(p, op)
    ensures Valid(Step(p, op))
  {
    hide DoCreate, DoDestroy, DoKey, DoModifiers, DoSetFocus, DoSurfaceGone, DoSetKeymap, DoSetRepeat, Valid;
    match op {
      case Create(d) => CreateKeeps(p, d);
      case Destroy(d) => DestroyKeeps(p, d);
      case Key(key, state) => KeyKeeps(p, key, state);
      case UpdateModifiers(depressed, latched, locked, group) => ModifiersKeeps(p, depressed, latched, locked, group);
      case SetFocusedSurface(surface) => SetFocusKeeps(p, surface);
      case SurfaceGone(surface) => SurfaceGoneKeeps(p, surface);
      case SetKeymap(keymap) => SetKeymapKeeps(p, keymap);
      case SetRepeatInfo(rate, delay) => SetRepeatKeeps(p, rate, delay);
    }
  }

  /** The pools that `ops` can lead to from `p`; `None` when some step is not enabled. */
  ghost function Run(p: Pool, ops: seq<Op>): (r: Option<Pool>)
    requires Valid(p)
    ensures r.Some? ==> Valid(r.value)
    decreases |ops|
  {
    if ops == [] then Some(p)
    else if !Enabled(p, ops[0]) then None
    else
      StepKeeps(p, ops[0]);
      Run(Step(p, ops[0]), ops[1..])
  }

  /** After any run, what a client rebuilt from the events of a focused keyboard is the pool's state;
      the focused keyboards are those of the focused client, in order; the others know of no focus. */
  lemma ClientViewAgrees(serial: nat, ops: seq<Op>, q: Pool, d: Keyboard)
    requires Run(Start(serial), ops) == Some(q) && d in q.devices
    ensures d in q.boards && Lawful(q.boards[d].log)
    ensures q.focus.devices == ForSurface(q.focus.surface, q.devices, OfClient)
    ensures
      var v := See(q.boards[d].log);
      if q.focus.surface.Some? && q.focus.surface.value.client == d.client
      then
        && v.focus == q.focus.surface && v.keys == PressedIn(q.states) && v.modifiers == Some(q.modifiers)
        && (q.keymap.Some? ==> v.keymap == q.keymap)
      else v.focus.None?
  {
    assert BoardOk(q, d);
  }

  /** A keyboard that is not marked was last sent exactly the pool's keymap, and one that is in focus
      is marked only while the pool has none. */
  lemma LazyKeymapIsCurrent(p: Pool, d: Keyboard)
    requires Valid(p) && d in p.devices
    ensures d in p.boards
    ensures !p.boards[d].needsKeymap ==> p.keymap.Some? && See(p.boards[d].log).keymap == p.keymap
    ensures d in p.focus.devices && p.keymap.Some? ==> !p.boards[d].needsKeymap
  {
    assert BoardOk(p, d);
  }

  /** Whenever a step sends an enter event, the keyboard already has the pool's keymap, if there is one. */
  lemma KeymapPrecedesEnter(p: Pool, op: Op, d: Keyboard, i: nat)
    requires Valid(p) && Enabled(p, op) && d in Step(p, op).boards
    requires
      var before := if d in p.boards then |p.boards[d].log| else 0;
      before <= i < |Step(p, op).boards[d].log|
    requires Step(p, op).boards[d].log[i].Enter? && p.keymap.Some?
    ensures See(Step(p, op).boards[d].log[..i]).keymap == p.keymap
  {
    if op.SetFocusedSurface? {
      assert d in p.devices;
      hide See, Lawful, PressedIn, Agrees, Filter, BoardOk, DoSetFocus;
      assert BoardOk(p, d);
      KeymapPrecedesNewEnter(p, op.surface, d, i);
    } else {
      hide See, Lawful, PressedIn, Agrees, Filter, BoardOk;
      if op == Create(d) {
        KeymapPrecedesFirstEnter(p, d, i);
      } else {
        OthersSendNoEnter(p, op, d, i);
        assert false;
      }
    }
  }

  lemma OthersSendNoEnter(p: Pool, op: Op, d: Keyboard, i: nat)
    requires Valid(p) && Enabled(p, op) && op != Create(d) && !op.SetFocusedSurface?
    requires d in p.boards && d in Step(p, op).boards && |p.boards[d].log| <= i < |Step(p, op).boards[d].log|
    ensures !Step(p, op).boards[d].log[i].Enter?
  {
    hide See, Lawful, PressedIn, Agrees, Filter, BoardOk;
  }

  lemma KeymapPrecedesFirstEnter(p: Pool, d: Keyboard, i: nat)
    requires i < |DoCreate(p, d).boards[d].log| && DoCreate(p, d).boards[d].log[i].Enter? && p.keymap.Some?
    ensures See(DoCreate(p, d).boards[d].log[..i]).keymap == p.keymap
  {
    hide See;
    var log := DoCreate(p, d).boards[d].log;
    assert log[..i] == log[..i - 1] + [KeymapSent(p.keymap.value)];
    OneMore(log[..i - 1], KeymapSent(p.keymap.value));
  }

  lemma KeymapPrecedesNewEnter(p: Pool, surface: Option<Surface>, d: Keyboard, i: nat)
    requires Valid(p) && d in p.devices && BoardOk(p, d)
    requires
      var log := DoSetFocus(p, surface).boards[d].log;
      |p.boards[d].log| <= i < |log| && log[i].Enter? && p.keymap.Some?
    ensures See(DoSetFocus(p, surface).boards[d].log[..i]).keymap == p.keymap
  {
    hide See, Lawful, PressedIn, Answer, Filter;
    var serial, keys := NextSerial(p.serial), PressedIn(p.states);
    var b := p.boards[d];
    var left := if d in p.focus.devices then Answer(d, b, SetFocus(serial, None, keys, p.modifiers)) else b;
    Refocused(d, b, serial, None, keys, p.modifiers);
    LeftNoEnter(d, b, serial, keys, p.modifiers);
    if d in ForSurface(surface, p.devices, OfClient) {
      CaughtUp(d, left, p.keymap);
      var ready := Answer(d, left, CatchUp(p.keymap));
      EnteredAt(d, left, p.keymap, serial, surface, keys, p.modifiers, i);
    }
  }

  lemma LeftNoEnter(d: Keyboard, b: Board, serial: nat, keys: set<nat>, mods: Modifiers)
    ensures
      var r := Answer(d, b, SetFocus(serial, None, keys, mods));
      && r.focused.None? && |b.log| <= |r.log|
      && forall i :: |b.log| <= i < |r.log| ==> !r.log[i].Enter?
  {
  }

  /** An unfocused keyboard that catches up and enters has just one enter event, after the keymap. */
  lemma EnteredAt(d: Keyboard, b: Board, latest: Option<nat>, serial: nat, surface: Option<Surface>,
                  keys: set<nat>, mods: Modifiers, i: nat)
    requires b.focused.None? && Lawful(b.log)
    ensures
      var ready := Answer(d, b, CatchUp(latest));
      var r := Answer(d, ready, SetFocus(serial, surface, keys, mods));
      && b.log <= ready.log <= r.log
      && (|b.log| <= i < |r.log| && r.log[i].Enter? ==> r.log[..i] == ready.log)
  {
    hide See, Lawful;
  }

  // ---------------------------------------------------------------- the program

  class Keyboard {
    const client: nat
    const version: nat
    var focusedSurface: Option<Surface>
    var needsKeymap: bool
    var log: seq<Event>

    ghost function Record(): Board
      reads this
    {
      Board(focusedSurface, needsKeymap, log)
    }

    constructor (client: nat, version: nat)
      ensures this.client == client && this.version == version
      ensures Record() == Board(None, true, [])
    {
      this.client, this.version := client, version;
      focusedSurface, needsKeymap, log := None, true, [];
    }

    method SetKeymap(content: nat)
      modifies this
      ensures Record() == Answer(this, old(Record()), GiveKeymap(content))
    {
      log := log + [KeymapSent(content)];
      needsKeymap := false;
    }

    method SendLeave(serial: nat, surface: Option<Surface>)
      modifies this`log
      ensures log == old(log) + if surface.Some? then [Leave(serial, surface.value)] else []
    {
      if surface.Some? { log := log + [Leave(serial, surface.value)]; }
    }

    /** The pressed keys go out with the enter event, the modifiers right behind it. */
    method SendEnter(serial: nat, surface: Surface, pool: KeyboardPool)
      modifies this`log
      ensures log == old(log) + [Enter(serial, surface, PressedIn(pool.states))] + [ModifiersSent(pool.modifiers)]
    {
      var keys := pool.PressedKeys();
      var pressed := set k | k in keys;
      assert pressed == PressedIn(pool.states);
      log := log + [Enter(serial, surface, pressed)];
      log := log + [ModifiersSent(pool.modifiers)];
    }

    method SetFocusedSurface(serial: nat, surface: Option<Surface>, pool: KeyboardPool)
      modifies this
      ensures Record()
           == Answer(this, old(Record()), SetFocus(serial, surface, PressedIn(pool.states), pool.modifiers))
    {
      SendLeave(serial, focusedSurface);
      focusedSurface := surface;
      if focusedSurface.Some? { SendEnter(serial, focusedSurface.value, pool); }
    }

    /** The destroy notifier of the focused surface. */
    method FocusedSurfaceGone(serial: nat)
      requires focusedSurface.Some?
      modifies this
      ensures Record() == Say(old(Record()), Leave(serial, old(focusedSurface).value)).(focused := None)
    {
      SendLeave(serial, focusedSurface);
      focusedSurface := None;
    }

    /** The precondition is the assertion at the head of the C++ function. */
    method Key(serial: nat, key: nat, state: KeyState)
      requires focusedSurface.Some?
      modifies this`log
      ensures Record() == Answer(this, old(Record()), Tell(KeySent(serial, key, state)))
    {
      log := log + [KeySent(serial, key, state)];
    }

    method UpdateModifiers(modifiers: Modifiers)
      requires focusedSurface.Some?
      modifies this`log
      ensures Record() == Answer(this, old(Record()), Tell(ModifiersSent(modifiers)))
    {
      log := log + [ModifiersSent(modifiers)];
    }

    method RepeatInfo(rate: int, delay: int)
      modifies this`log
      ensures Record() == Answer(this, old(Record()), Repeat(rate, delay))
    {
      if version >= REPEAT_SINCE { log := log + [RepeatSent(rate, delay)]; }
    }
  }

  ghost function BoardsOf(devices: seq<Keyboard>): map<Keyboard, Board>
    reads devices
  {
    map d | d in devices :: d.Record()
  }

  /** The keyboards `done` have answered `call`, the rest of `devices` are as they were in `before`. */
  ghost predicate Answered(before: map<Keyboard, Board>, devices: seq<Keyboard>, done: seq<Keyboard>, call: Call)
    reads devices
  {
    forall d :: d in devices ==>
      d in before && d.Record() == if d in done then Answer(d, before[d], call) else before[d]
  }

  lemma AnsweredIsEach(before: map<Keyboard, Board>, devices: seq<Keyboard>, list: seq<Keyboard>, call: Call)
    requires Answered(before, devices, list, call) && before.Keys == (set d | d in devices)
    ensures BoardsOf(devices) == Each(before, list, call)
  {
    hide Answer;
  }

  /** Every focused keyboard is a living device whose focused surface is set: the assertions at the
      head of `Keyboard::key` and `Keyboard::updateModifiers` hold. */
  ghost predicate FocusKnown(devices: seq<Keyboard>, focus: Focus)
    reads devices, focus.devices
  {
    && NoDup(devices) && NoDup(focus.devices)
    && (forall d :: d in focus.devices ==> d in devices)
    && forall d :: d in focus.devices ==> d.focusedSurface.Some? && d.focusedSurface == focus.surface
  }

  class KeyboardPool {
    var keymap: Option<nat>
    var focus: Focus
    var modifiers: Modifiers
    var rate: int
    var delay: int
    var states: map<nat, KeyState>
    var lastStateSerial: nat
    var devices: seq<Keyboard>
    /** The display's serial counter. */
    var serial: nat

    ghost function Snap(): Pool
      reads this, devices
    {
      Pool(keymap, focus, modifiers, rate, delay, states, lastStateSerial, devices, BoardsOf(devices), serial)
    }

    constructor (serial: nat)
      ensures Snap() == Start(serial)
    {
      keymap, focus, modifiers := None, NO_FOCUS, Modifiers(0, 0, 0, 0, 0);
      rate, delay, states, lastStateSerial, devices := 0, 0, map[], 0, [];
      this.serial := serial;
    }

    method DrawSerial() returns (r: nat)
      modifies this`serial
      ensures r == serial == NextSerial(old(serial))
    {
      serial := NextSerial(serial);
      r := serial;
    }

    /** The map is walked in no particular order. */
    method PressedKeys() returns (keys: seq<nat>)
      ensures NoDup(keys) && (set k | k in keys) == PressedIn(states)
    {
      keys := [];
      var rest := states.Keys;
      while rest != {}
        invariant rest <= states.Keys && NoDup(keys)
        invariant forall k :: k in keys <==> k in states && k !in rest && states[k].Pressed?
        decreases rest
      {
        var k :| k in rest;
        if states[k].Pressed? { keys := keys + [k]; }
        rest := rest - {k};
      }
    }

    method CreateDevice(client: nat, version: nat) returns (keyboard: Keyboard)
      requires Valid(Snap())
      modifies this
      ensures fresh(keyboard) && keyboard.client == client && keyboard.version == version
      ensures Snap() == DoCreate(old(Snap()), keyboard)
    {
      hide Valid, Answer, PressedIn, BoardsOf;
      ghost var before := BoardsOf(devices);
      keyboard := new Keyboard(client, version);
      keyboard.RepeatInfo(rate, delay);
      if focus.surface.Some? && focus.surface.value.client == keyboard.client {
        JoinFocus(keyboard);
        focus := focus.(devices := focus.devices + [keyboard]);
      }
      assert BoardsOf(devices) == before;
      AddedBoard(devices, keyboard);
      devices := devices + [keyboard];
    }

    lemma AddedBoard(devices: seq<Keyboard>, keyboard: Keyboard)
      ensures BoardsOf(devices + [keyboard]) == BoardsOf(devices)[keyboard := keyboard.Record()]
    {
    }

    /** A keyboard for the currently focused surface. */
    method JoinFocus(keyboard: Keyboard)
      modifies keyboard
      ensures
        var given := if keymap.Some? then Answer(keyboard, old(keyboard.Record()), GiveKeymap(keymap.value))
                     else old(keyboard.Record());
        keyboard.Record()
          == Answer(keyboard, given, SetFocus(focus.serial, focus.surface, PressedIn(states), modifiers))
    {
      hide Answer, PressedIn;
      if keymap.Some? { keyboard.SetKeymap(keymap.value); }
      keyboard.SetFocusedSurface(focus.serial, focus.surface, this);
    }

    method DeviceDestroyed(keyboard: Keyboard)
      requires Valid(Snap()) && keyboard in devices
      modifies this
      ensures Snap() == DoDestroy(old(Snap()), keyboard)
    {
      hide BoardOk, Filter, ForSurface, RemoveOne, NoDup, BoardsOf;
      DroppedBoard(devices, keyboard);
      hide Valid;
      devices := RemoveOne(devices, keyboard);
      focus := focus.(devices := RemoveOne(focus.devices, keyboard));
    }

    lemma DroppedBoard(devices: seq<Keyboard>, keyboard: Keyboard)
      requires NoDup(devices)
      ensures BoardsOf(RemoveOne(devices, keyboard)) == BoardsOf(devices) - {keyboard}
    {
      hide RemoveOne, NoDup;
      RemoveOneLeaves(devices, keyboard);
      var rest := RemoveOne(devices, keyboard);
      assert BoardsOf(rest).Keys == BoardsOf(devices).Keys - {keyboard};
    }

    method UpdateKey(key: nat, state: KeyState) returns (changed: bool)
      modifies this`states
      ensures changed <==> !(key in old(states) && old(states)[key] == state)
      ensures states == if changed then old(states)[key := state] else old(states)
    {
      if key in states && states[key] == state { return false; }
      states := states[key := state];
      return true;
    }

    method Key(key: nat, state: KeyState)
      requires Valid(Snap())
      modifies this, devices
      ensures Snap() == DoKey(old(Snap()), key, state)
    {
      FocusIsKnown();
      hide Valid, BoardsOf, PressedIn, ForSurface, Each, NoDup;
      ghost var boards := BoardsOf(devices);
      lastStateSerial := DrawSerial();
      var changed := UpdateKey(key, state);
      assert BoardsOf(devices) == boards;
      if !changed { return; }
      if focus.surface.Some? { SendKey(lastStateSerial, key, state); }
    }

    method SendKey(serial: nat, key: nat, state: KeyState)
      requires FocusKnown(devices, focus)
      modifies devices
      ensures unchanged(this)
      ensures BoardsOf(devices) == Each(old(BoardsOf(devices)), focus.devices, Tell(KeySent(serial, key, state)))
    {
      hide Answer;
      ghost var before, call := BoardsOf(devices), Tell(KeySent(serial, key, state));
      for i := 0 to |focus.devices|
        invariant Answered(before, devices, focus.devices[..i], call)
        invariant forall d :: d in focus.devices[i..] ==> d.focusedSurface.Some?
      {
        assert focus.devices[..i + 1] == focus.devices[..i] + [focus.devices[i]];
        assert focus.devices[i] in focus.devices;
        focus.devices[i].Key(serial, key, state);
      }
      assert focus.devices[..|focus.devices|] == focus.devices;
      AnsweredIsEach(before, devices, focus.devices, call);
    }

    method UpdateModifiers(depressed: nat, latched: nat, locked: nat, group: nat)
      requires Valid(Snap())
      modifies this, devices
      ensures Snap() == DoModifiers(old(Snap()), depressed, latched, locked, group)
    {
      FocusIsKnown();
      hide Valid, BoardsOf, PressedIn, ForSurface, Each, NoDup;
      var mods := Modifiers(depressed, latched, locked, group, modifiers.serial);
      if modifiers == mods { return; }
      ghost var boards := BoardsOf(devices);
      modifiers := mods;
      var drawn := DrawSerial();
      modifiers := modifiers.(serial := drawn);
      assert BoardsOf(devices) == boards;
      if focus.surface.Some? { SendModifiers(); }
    }

    method SendModifiers()
      requires FocusKnown(devices, focus)
      modifies devices
      ensures unchanged(this)
      ensures BoardsOf(devices) == Each(old(BoardsOf(devices)), focus.devices, Tell(ModifiersSent(modifiers)))
    {
      hide Answer;
      ghost var before, call := BoardsOf(devices), Tell(ModifiersSent(modifiers));
      for i := 0 to |focus.devices|
        invariant Answered(before, devices, focus.devices[..i], call)
        invariant forall d :: d in focus.devices[i..] ==> d.focusedSurface.Some?
      {
        assert focus.devices[..i + 1] == focus.devices[..i] + [focus.devices[i]];
        assert focus.devices[i] in focus.devices;
        focus.devices[i].UpdateModifiers(modifiers);
      }
      assert focus.devices[..|focus.devices|] == focus.devices;
      AnsweredIsEach(before, devices, focus.devices, call);
    }

    method SetFocusedSurface(surface: Option<Surface>)
      requires Valid(Snap())
      modifies this, devices
      ensures Snap() == DoSetFocus(old(Snap()), surface)
    {
      FocusIsKnown();
      ForSurfaceIsPart(surface, devices);
      hide Valid, BoardsOf, PressedIn, Each, ForSurface, NoDup, FocusKnown, DoSetFocus;
      ghost var p := Snap();
      var drawn := DrawSerial();
      assert BoardsOf(devices) == p.boards;
      LeaveFocus(drawn);
      ghost var left := BoardsOf(devices);
      var next := NO_FOCUS.(devices := ForSurface(surface, devices, OfClient));
      if surface.Some? { next := next.(surface := surface, serial := drawn); }
      focus := next;
      assert BoardsOf(devices) == left;
      EnterFocus(drawn, surface);
      SetFocusIs(p, Snap(), surface);
    }

    lemma SetFocusIs(p: Pool, q: Pool, surface: Option<Surface>)
      requires q.keymap == p.keymap && q.modifiers == p.modifiers && q.rate == p.rate && q.delay == p.delay
      requires q.states == p.states && q.lastStateSerial == p.lastStateSerial && q.devices == p.devices
      requires q.serial == NextSerial(p.serial)
      requires q.focus
            == if surface.Some? then Focus(surface, ForSurface(surface, p.devices, OfClient), q.serial) else NO_FOCUS
      requires
        var keys := PressedIn(p.states);
        var left := Each(p.boards, p.focus.devices, SetFocus(q.serial, None, keys, p.modifiers));
        q.boards == Each(Each(left, q.focus.devices, CatchUp(p.keymap)), q.focus.devices,
                         SetFocus(q.serial, surface, keys, p.modifiers))
      ensures q == DoSetFocus(p, surface)
    {
      hide Each, PressedIn, Filter;
    }

    lemma ForSurfaceIsPart(surface: Option<Surface>, devices: seq<Keyboard>)
      requires NoDup(devices)
      ensures NoDup(ForSurface(surface, devices, OfClient))
      ensures forall d :: d in ForSurface(surface, devices, OfClient) ==> d in devices
    {
    }

    method LeaveFocus(serial: nat)
      requires FocusKnown(devices, focus)
      modifies devices
      ensures unchanged(this)
      ensures BoardsOf(devices)
           == Each(old(BoardsOf(devices)), focus.devices, SetFocus(serial, None, PressedIn(states), modifiers))
    {
      hide Answer, PressedIn;
      ghost var before, call := BoardsOf(devices), SetFocus(serial, None, PressedIn(states), modifiers);
      for i := 0 to |focus.devices|
        invariant Answered(before, devices, focus.devices[..i], call)
      {
        assert focus.devices[..i + 1] == focus.devices[..i] + [focus.devices[i]];
        assert focus.devices[i] in focus.devices;
        focus.devices[i].SetFocusedSurface(serial, None, this);
      }
      assert focus.devices[..|focus.devices|] == focus.devices;
      AnsweredIsEach(before, devices, focus.devices, call);
    }

    method EnterFocus(serial: nat, surface: Option<Surface>)
      requires NoDup(focus.devices) && forall d :: d in focus.devices ==> d in devices
      modifies devices
      ensures unchanged(this)
      ensures BoardsOf(devices)
           == Each(Each(old(BoardsOf(devices)), focus.devices, CatchUp(keymap)), focus.devices,
                   SetFocus(serial, surface, PressedIn(states), modifiers))
    {
      hide Answer, PressedIn;
      ghost var before, call := BoardsOf(devices), SetFocus(serial, surface, PressedIn(states), modifiers);
      ghost var caughtUp := Each(before, focus.devices, CatchUp(keymap));
      for i := 0 to |focus.devices|
        invariant forall d :: d in devices ==>
          d.Record() == if d in focus.devices[..i] then Answer(d, caughtUp[d], call) else before[d]
      {
        assert focus.devices[..i + 1] == focus.devices[..i] + [focus.devices[i]];
        assert focus.devices[i] in focus.devices;
        EnterOne(focus.devices[i], serial, surface);
      }
      assert focus.devices[..|focus.devices|] == focus.devices;
      AnsweredIsEach(caughtUp, devices, focus.devices, call);
    }

    /** The body of the loop that enters the new focus. */
    method EnterOne(keyboard: Keyboard, serial: nat, surface: Option<Surface>)
      modifies keyboard
      ensures keyboard.Record()
           == Answer(keyboard, Answer(keyboard, old(keyboard.Record()), CatchUp(keymap)),
                     SetFocus(serial, surface, PressedIn(states), modifiers))
    {
      if keyboard.needsKeymap && keymap.Some? { keyboard.SetKeymap(keymap.value); }
      keyboard.SetFocusedSurface(serial, surface, this);
    }

    method SetKeymap(keymap: Option<nat>)
      requires Valid(Snap())
      modifies this, devices
      ensures Snap() == DoSetKeymap(old(Snap()), keymap)
    {
      FocusIsKnown();
      hide Valid, BoardsOf, PressedIn, ForSurface, Each, NoDup;
      if this.keymap == keymap { return; }
      ghost var boards := BoardsOf(devices);
      this.keymap := keymap;
      assert BoardsOf(devices) == boards;
      MarkAll();
      if keymap.Some? { GiveFocused(keymap.value); }
    }

    method MarkAll()
      requires NoDup(devices)
      modifies devices
      ensures unchanged(this)
      ensures BoardsOf(devices) == Each(old(BoardsOf(devices)), devices, MarkForKeymap)
    {
      ghost var before := BoardsOf(devices);
      for i := 0 to |devices|
        invariant Answered(before, devices, devices[..i], MarkForKeymap)
      {
        assert devices[..i + 1] == devices[..i] + [devices[i]];
        devices[i].needsKeymap := true;
      }
      assert devices[..|devices|] == devices;
      AnsweredIsEach(before, devices, devices, MarkForKeymap);
    }

    method GiveFocused(content: nat)
      requires NoDup(focus.devices) && forall d :: d in focus.devices ==> d in devices
      modifies devices
      ensures unchanged(this)
      ensures BoardsOf(devices) == Each(old(BoardsOf(devices)), focus.devices, GiveKeymap(content))
    {
      hide Answer;
      ghost var before := BoardsOf(devices);
      for i := 0 to |focus.devices|
        invariant Answered(before, devices, focus.devices[..i], GiveKeymap(content))
      {
        assert focus.devices[..i + 1] == focus.devices[..i] + [focus.devices[i]];
        assert focus.devices[i] in focus.devices;
        focus.devices[i].SetKeymap(content);
      }
      assert focus.devices[..|focus.devices|] == focus.devices;
      AnsweredIsEach(before, devices, focus.devices, GiveKeymap(content));
    }

    method SetRepeatInfo(charactersPerSecond: int, delay: int)
      requires Valid(Snap())
      modifies this, devices
      ensures Snap() == DoSetRepeat(old(Snap()), charactersPerSecond, delay)
    {
      FocusIsKnown();
      hide Valid, BoardsOf, Each, NoDup;
      ghost var boards := BoardsOf(devices);
      rate := if charactersPerSecond > 0 then charactersPerSecond else 0;
      this.delay := if delay > 0 then delay else 0;
      assert BoardsOf(devices) == boards;
      RepeatAll();
    }

    method RepeatAll()
      requires NoDup(devices)
      modifies devices
      ensures unchanged(this)
      ensures BoardsOf(devices) == Each(old(BoardsOf(devices)), devices, Repeat(rate, delay))
    {
      hide Answer;
      ghost var before, call := BoardsOf(devices), Repeat(rate, delay);
      for i := 0 to |devices|
        invariant Answered(before, devices, devices[..i], call)
      {
        assert devices[..i + 1] == devices[..i] + [devices[i]];
        devices[i].RepeatInfo(rate, delay);
      }
      assert devices[..|devices|] == devices;
      AnsweredIsEach(before, devices, devices, call);
    }

    /** The destroy notifiers of a surface: the pool's own, and one of each keyboard focused on it. */
    method SurfaceGone(surface: Surface)
      requires Valid(Snap())
      modifies this, devices
      ensures Snap() == DoSurfaceGone(old(Snap()), surface)
    {
      FocusIsKnown();
      assert forall d :: d in focus.devices ==> d in Snap().boards && Snap().boards[d].focused.Some?;
      hide Valid, BoardsOf, PressedIn, ForSurface, Deserted, NoDup;
      if focus.surface == Some(surface) {
        ghost var boards := BoardsOf(devices);
        var left := focus.devices;
        focus := NO_FOCUS;
        assert BoardsOf(devices) == boards;
        Desert(left);
      }
    }

    method Desert(left: seq<Keyboard>)
      requires NoDup(left) && forall d :: d in left ==> d in devices && d.focusedSurface.Some?
      modifies this`serial, devices
      ensures serial == Later(old(serial), |left|)
      ensures BoardsOf(devices) == Deserted(old(BoardsOf(devices)), left, old(serial))
    {
      hide IndexOf, Say;
      ghost var before, serial0 := BoardsOf(devices), serial;
      for i := 0 to |left|
        invariant serial == Later(serial0, i)
        invariant forall j :: i <= j < |left| ==> left[j].Record() == before[left[j]]
        invariant forall d :: d in devices && d !in left ==> d.Record() == before[d]
        invariant forall j :: 0 <= j < i ==>
          var b := before[left[j]];
          left[j].Record() == Say(b, Leave(Later(serial0, j + 1), b.focused.value)).(focused := None)
      {
        assert left[i] in left && forall j :: 0 <= j < |left| && j != i ==> left[j] != left[i];
        var drawn := DrawSerial();
        left[i].FocusedSurfaceGone(drawn);
      }
      forall d | d in devices && d in left ensures d.Record() == Deserted(before, left, serial0)[d] {
        assert left[IndexOf(left, d)] == d;
      }
    }

    lemma FocusIsKnown()
      requires Valid(Snap())
      ensures FocusKnown(devices, focus)
    {
      forall d | d in focus.devices
        ensures d in devices && d.focusedSurface.Some? && d.focusedSurface == focus.surface
      {
        assert BoardOk(Snap(), d);
      }
    }
  }
}
