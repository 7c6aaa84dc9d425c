/** The keyboards against the requests made of their pool: what a client knows is what was asked for last,
    and every step sends each keyboard just the events that it must. */
module KeyboardHistory {
  import opened Seqs
  import opened Devices
  import opened KeyboardFocus

  // ---------------------------------------------------------------- what was asked for

  /** The four numbers of a modifier update. */
  datatype Masks = Masks(depressed: nat, latched: nat, locked: nat, group: nat)

  /** What the operations so far asked for last, and the keyboards they left. */
  datatype Wish = Wish(
    keys: set<nat>,
    masks: Masks,
    focus: Option<Surface>,
    keymap: Option<nat>,
    rate: int,
    delay: int,
    alive: set<Keyboard>)

  const NO_WISH := Wish({}, Masks(0, 0, 0, 0), None, None, 0, 0, {})

  function AtLeastZero(x: int): int {
    if x > 0 then x else 0
  }

  function Asked(w: Wish, op: Op): Wish {
    match op
    case Create(d) => w.(alive := w.alive + {d})
    case Destroy(d) => w.(alive := w.alive - {d})
    case Key(key, state) => w.(keys := if state.Pressed? then w.keys + {key} else w.keys - {key})
    case UpdateModifiers(depressed, latched, locked, group) => w.(masks := Masks(depressed, latched, locked, group))
    case SetFocusedSurface(surface) => w.(focus := surface)
    case SurfaceGone(surface) => if w.focus == Some(surface) then w.(focus := None) else w
    case SetKeymap(keymap) => w.(keymap := keymap)
    case SetRepeatInfo(rate, delay) => w.(rate := AtLeastZero(rate), delay := AtLeastZero(delay))
  }

  function AskedAll(w: Wish, ops: seq<Op>): Wish
    decreases |ops|
  {
    if ops == [] then w else AskedAll(Asked(w, ops[0]), ops[1..])
  }

  predicate KeyOp(op: Op, key: nat) {
    op.Key? && op.key == key
  }

  /** A key is down exactly when the last thing that was said of it is that it was pressed. */
  lemma {:induction false} LastKeyDecides(w: Wish, before: seq<Op>, key: nat, state: KeyState, after: seq<Op>)
    requires forall op :: op in after ==> !KeyOp(op, key)
    ensures key in AskedAll(w, before + [Key(key, state)] + after).keys <==> state.Pressed?
    decreases |before|
  {
    var ops := before + [Key(key, state)] + after;
    if before == [] {
      assert ops[0] == Key(key, state) && ops[1..] == after;
      OthersKeepKey(Asked(w, Key(key, state)), after, key);
    } else {
      assert ops[0] == before[0] && ops[1..] == before[1..] + [Key(key, state)] + after;
      LastKeyDecides(Asked(w, before[0]), before[1..], key, state, after);
    }
  }

  lemma {:induction false} OthersKeepKey(w: Wish, ops: seq<Op>, key: nat)
    requires forall op :: op in ops ==> !KeyOp(op, key)
    ensures key in AskedAll(w, ops).keys <==> key in w.keys
    decreases |ops|
  {
    if ops != [] {
      assert ops[0] in ops && forall op :: op in ops[1..] ==> op in ops;
      OthersKeepKey(Asked(w, ops[0]), ops[1..], key);
    }
  }

  // ---------------------------------------------------------------- the pool does what was asked

  function MasksOf(m: Modifiers): Masks {
    Masks(m.depressed, m.latched, m.locked, m.group)
  }

  ghost function WishOf(p: Pool): Wish {
    Wish(PressedIn(p.states), MasksOf(p.modifiers), p.focus.surface, p.keymap, p.rate, p.delay, p.boards.Keys)
  }

  lemma StepIsAsked(p: Pool, op: Op)
    requires Valid(p) && Enabled(p, op)
    ensures WishOf(Step(p, op)) == Asked(WishOf(p), op)
  {
    hide Valid, Answer, Filter, Deserted;
    match op {
      case Key(key, state) =>
        assert PressedIn(Step(p, op).states)
            == if state.Pressed? then PressedIn(p.states) + {key} else PressedIn(p.states) - {key};
        assert Step(p, op).boards.Keys == p.boards.Keys;
      case SurfaceGone(surface) => GoneKeepsBoards(p, surface);
      case _ => assert Step(p, op).boards.Keys == Asked(WishOf(p), op).alive;
    }
  }

  lemma GoneKeepsBoards(p: Pool, surface: Surface)
    requires Valid(p)
    ensures DoSurfaceGone(p, surface).boards.Keys == p.boards.Keys
  {
  }

  lemma {:induction false} RunIsAsked(p: Pool, ops: seq<Op>, q: Pool)
    requires Valid(p) && Run(p, ops) == Some(q)
    ensures WishOf(q) == AskedAll(WishOf(p), ops)
    decreases |ops|
  {
    if ops != [] {
      hide Step, Valid, Enabled, WishOf, Asked;
      StepKeeps(p, ops[0]);
      StepIsAsked(p, ops[0]);
      RunIsAsked(Step(p, ops[0]), ops[1..], q);
    }
  }

  /** After any run, told by the operations alone: the living keyboards of the client whose surface has
      the focus know that surface, the keys that are down, the modifiers, the keymap and the repeat rate;
      every other keyboard knows of no focus. */
  lemma ClientKnowsWhatWasAsked(serial: nat, ops: seq<Op>, q: Pool, d: Keyboard)
    requires Run(Start(serial), ops) == Some(q) && d in AskedAll(NO_WISH, ops).alive
    ensures d in q.boards
    ensures
      var w, v := AskedAll(NO_WISH, ops), See(q.boards[d].log);
      && (d.version >= REPEAT_SINCE ==> v.repeat == Some((w.rate, w.delay)))
      && if w.focus.Some? && w.focus.value.client == d.client
         then
           && v.focus == w.focus && v.keys == w.keys
           && v.modifiers.Some? && MasksOf(v.modifiers.value) == w.masks
           && (w.keymap.Some? ==> v.keymap == w.keymap)
         else v.focus.None?
  {
    RunIsAsked(Start(serial), ops, q);
    assert PressedIn(map[]) == {};
    assert WishOf(Start(serial)) == NO_WISH;
    assert d in q.devices && BoardOk(q, d);
    ClientViewAgrees(serial, ops, q, d);
  }

  // ---------------------------------------------------------------- the events of a step

  ghost predicate Focused(p: Pool, d: Keyboard) {
    p.focus.surface.Some? && p.focus.surface.value.client == d.client
  }

  /** Entering tells the surface and the keys, then the modifiers; a keymap that is due comes first. */
  ghost function Entering(p: Pool, serial: nat, surface: Surface, keymapDue: bool): seq<Event> {
    (if keymapDue && p.keymap.Some? then [KeymapSent(p.keymap.value)] else [])
    + [Enter(serial, surface, PressedIn(p.states)), ModifiersSent(p.modifiers)]
  }

  /** What the step tells a keyboard that was there before. */
  ghost function NewEvents(p: Pool, op: Op, d: Keyboard): seq<Event>
    requires Valid(p) && Enabled(p, op) && d in p.boards
  {
    var drawn := NextSerial(p.serial);
    match op
    case Create(_) => []
    case Destroy(_) => []
    case Key(key, state) =>
      if Focused(p, d) && !(key in p.states && p.states[key] == state) then [KeySent(drawn, key, state)] else []
    case UpdateModifiers(depressed, latched, locked, group) =>
      if Focused(p, d) && MasksOf(p.modifiers) != Masks(depressed, latched, locked, group)
      then [ModifiersSent(Modifiers(depressed, latched, locked, group, drawn))] else []
    case SetFocusedSurface(surface) =>
      (if Focused(p, d) then [Leave(drawn, p.focus.surface.value)] else [])
      + if surface.Some? && surface.value.client == d.client
        then Entering(p, drawn, surface.value, p.boards[d].needsKeymap) else []
    case SurfaceGone(surface) =>
      if p.focus.surface == Some(surface) && surface.client == d.client
      then [Leave(Later(p.serial, PlaceInFocus(p, d)), surface)] else []
    case SetKeymap(keymap) =>
      if Focused(p, d) && keymap != p.keymap && keymap.Some? then [KeymapSent(keymap.value)] else []
    case SetRepeatInfo(rate, delay) =>
      if d.version >= REPEAT_SINCE then [RepeatSent(AtLeastZero(rate), AtLeastZero(delay))] else []
  }

  /** Counted from one. */
  ghost function PlaceInFocus(p: Pool, d: Keyboard): nat {
    if d in p.focus.devices then IndexOf(p.focus.devices, d) + 1 else 0
  }

  ghost predicate Hears(p: Pool, q: Pool, d: Keyboard, events: seq<Event>) {
    d in p.boards && d in q.boards && q.boards[d].log == p.boards[d].log + events
  }

  lemma FocusListIs(p: Pool, d: Keyboard)
    requires Valid(p) && d in p.boards
    ensures d in p.devices && BoardOk(p, d)
    ensures d in p.focus.devices <==> Focused(p, d)
    ensures p.boards[d].focused == if Focused(p, d) then p.focus.surface else None
  {
    assert BoardOk(p, d);
  }

  lemma KeyTells(p: Pool, key: nat, state: KeyState, d: Keyboard)
    requires Valid(p) && d in p.boards
    ensures Hears(p, Step(p, Key(key, state)), d, NewEvents(p, Key(key, state), d))
  {
    FocusListIs(p, d);
    hide Valid, BoardOk, PressedIn;
  }

  lemma ModifiersTell(p: Pool, op: Op, d: Keyboard)
    requires Valid(p) && op.UpdateModifiers? && d in p.boards
    ensures Hears(p, Step(p, op), d, NewEvents(p, op, d))
  {
    FocusListIs(p, d);
    hide Valid, BoardOk, PressedIn;
  }

  lemma LeavingSays(d: Keyboard, b: Board, serial: nat, keys: set<nat>, mods: Modifiers)
    ensures
      var r := Answer(d, b, SetFocus(serial, None, keys, mods));
      && r.log == b.log + (if b.focused.Some? then [Leave(serial, b.focused.value)] else [])
      && r.focused.None? && r.needsKeymap == b.needsKeymap
  {
  }

  lemma EnteringSays(p: Pool, d: Keyboard, b: Board, serial: nat, surface: Surface)
    requires b.focused.None?
    ensures
      var ready := Answer(d, b, CatchUp(p.keymap));
      Answer(d, ready, SetFocus(serial, Some(surface), PressedIn(p.states), p.modifiers)).log
      == b.log + Entering(p, serial, surface, b.needsKeymap)
  {
    hide PressedIn;
  }

  lemma RefocusedBoard(p: Pool, surface: Option<Surface>, d: Keyboard)
    requires Valid(p) && d in p.boards
    ensures
      var serial, keys := NextSerial(p.serial), PressedIn(p.states);
      var left := if Focused(p, d) then Answer(d, p.boards[d], SetFocus(serial, None, keys, p.modifiers))
                  else p.boards[d];
      && d in DoSetFocus(p, surface).boards
      && DoSetFocus(p, surface).boards[d]
         == if surface.Some? && surface.value.client == d.client
            then Answer(d, Answer(d, left, CatchUp(p.keymap)), SetFocus(serial, surface, keys, p.modifiers))
            else left
  {
    FocusListIs(p, d);
    hide Valid, BoardOk, PressedIn, Answer;
  }

  lemma FocusTells(p: Pool, surface: Option<Surface>, d: Keyboard)
    requires Valid(p) && d in p.boards
    ensures Hears(p, Step(p, SetFocusedSurface(surface)), d, NewEvents(p, SetFocusedSurface(surface), d))
  {
    hide Valid, BoardOk, PressedIn, Answer, DoSetFocus, Entering;
    FocusListIs(p, d);
    RefocusedBoard(p, surface, d);
    var serial, b := NextSerial(p.serial), p.boards[d];
    LeavingSays(d, b, serial, PressedIn(p.states), p.modifiers);
    var left := if Focused(p, d) then Answer(d, b, SetFocus(serial, None, PressedIn(p.states), p.modifiers)) else b;
    if surface.Some? { EnteringSays(p, d, left, serial, surface.value); }
  }

  lemma GoneTells(p: Pool, surface: Surface, d: Keyboard)
    requires Valid(p) && d in p.boards
    ensures Hears(p, Step(p, SurfaceGone(surface)), d, NewEvents(p, SurfaceGone(surface), d))
  {
    FocusListIs(p, d);
    assert forall x :: x in p.focus.devices ==> BoardOk(p, x);
    hide BoardOk, PressedIn, Filter, IndexOf, Later, Valid;
  }

  lemma KeymapTells(p: Pool, keymap: Option<nat>, d: Keyboard)
    requires Valid(p) && d in p.boards
    ensures Hears(p, Step(p, SetKeymap(keymap)), d, NewEvents(p, SetKeymap(keymap), d))
  {
    FocusListIs(p, d);
    hide Valid, BoardOk, PressedIn, Filter;
  }

  /** Every step tells every keyboard exactly the events that its operation calls for, with the serial
      that was drawn for it, and nothing else. */
  lemma StepTells(p: Pool, op: Op, d: Keyboard)
    requires Valid(p) && Enabled(p, op) && d in p.boards && op != Destroy(d)
    ensures Hears(p, Step(p, op), d, NewEvents(p, op, d))
  {
    hide Valid, Hears, DoKey, DoModifiers, DoSetFocus, DoSurfaceGone, DoSetKeymap;
    match op {
      case Key(key, state) => KeyTells(p, key, state, d);
      case UpdateModifiers(_, _, _, _) => ModifiersTell(p, op, d);
      case SetFocusedSurface(surface) => FocusTells(p, surface, d);
      case SurfaceGone(surface) => GoneTells(p, surface, d);
      case SetKeymap(keymap) => KeymapTells(p, keymap, d);
      case _ => OthersTell(p, op, d);
    }
  }

  lemma OthersTell(p: Pool, op: Op, d: Keyboard)
    requires Valid(p) && Enabled(p, op) && d in p.boards && op != Destroy(d)
    requires op.Create? || op.Destroy? || op.SetRepeatInfo?
    ensures Hears(p, Step(p, op), d, NewEvents(p, op, d))
  {
    FocusListIs(p, d);
    hide BoardOk, PressedIn, Filter;
  }

  /** A new keyboard hears the repeat rate if it can, and in focus the keymap, the focus and the modifiers. */
  lemma NewKeyboardHears(p: Pool, d: Keyboard)
    requires Valid(p) && d !in p.devices
    ensures d in Step(p, Create(d)).boards
    ensures Step(p, Create(d)).boards[d].log
         == (if d.version >= REPEAT_SINCE then [RepeatSent(p.rate, p.delay)] else [])
          + if Focused(p, d) then Entering(p, p.focus.serial, p.focus.surface.value, true) else []
  {
    hide Valid, PressedIn;
  }

  /** How many serials a step draws. */
  ghost function Draws(p: Pool, op: Op): nat {
    match op
    case Key(_, _) => 1
    case UpdateModifiers(depressed, latched, locked, group) =>
      One(MasksOf(p.modifiers) != Masks(depressed, latched, locked, group))
    case SetFocusedSurface(_) => 1
    case SurfaceGone(surface) => if p.focus.surface == Some(surface) then |p.focus.devices| else 0
    case _ => 0
  }

  /** Later events have later serials: every step moves the counter on by what it drew, and the modifiers
      carry the serial of their last change, the focus that of its last move. */
  lemma StepDraws(p: Pool, op: Op)
    requires Valid(p) && Enabled(p, op)
    ensures Step(p, op).serial == Later(p.serial, Draws(p, op))
    ensures op.UpdateModifiers? ==>
      Step(p, op).modifiers.serial == if Draws(p, op) == 1 then NextSerial(p.serial) else p.modifiers.serial
    ensures Step(p, op).lastStateSerial == if op.Key? then NextSerial(p.serial) else p.lastStateSerial
    ensures op.SetFocusedSurface? && op.surface.Some? ==> Step(p, op).focus.serial == NextSerial(p.serial)
  {
    hide Valid, Answer, Filter, Deserted;
    assert Later(p.serial, 1) == NextSerial(p.serial) && Later(p.serial, 0) == p.serial;
  }
}
