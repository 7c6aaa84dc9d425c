/** The implicit grab of a pointer: a request may name the serial of a button press, and it counts only
    while that button is held. The pool looks the serial up among the last serials of all buttons. */
module PointerGrab {
  import opened Seqs
  import opened Devices

  // ---------------------------------------------------------------- values

  datatype ButtonState = Released | Pressed

  /** What happened to a button, with the serial that was sent. */
  datatype Event = Press(button: nat, serial: nat) | Release(button: nat, serial: nat)

  /** `serials` and `states` are the program's; `stamps` counts the draws without wrapping, `clock` is
      the number of draws so far, and `history` is what was sent. */
  datatype Pool = Pool(
    serials: map<nat, nat>,
    states: map<nat, ButtonState>,
    stamps: map<nat, nat>,
    clock: nat,
    history: seq<Event>)

  ghost function Start(clock: nat): (p: Pool)
    ensures Valid(p)
  {
    Pool(map[], map[], map[], clock, [])
  }

  ghost function DoButton(p: Pool, button: nat, state: ButtonState): Pool {
    var clock := p.clock + 1;
    var serial := Wire(clock);
    Pool(p.serials[button := serial], p.states[button := state], p.stamps[button := clock], clock,
         p.history + [if state.Pressed? then Press(button, serial) else Release(button, serial)])
  }

  /** Any other part of the server draws a serial. */
  ghost function DoOther(p: Pool): Pool {
    p.(clock := p.clock + 1)
  }

  predicate IsPressed(states: map<nat, ButtonState>, button: nat) {
    button in states && states[button].Pressed?
  }

  // ---------------------------------------------------------------- the look-up

  /** `has_implicit_grab` when the buttons come in this order; the container has an order of its own. */
  predicate Scan(order: seq<nat>, serials: map<nat, nat>, states: map<nat, ButtonState>, serial: nat)
    requires forall b :: b in order ==> b in serials
  {
    order != []
    && if serials[order[0]] == serial then IsPressed(states, order[0])
       else Scan(order[1..], serials, states, serial)
  }

  ghost function Elements(order: seq<nat>): set<nat> {
    set b | b in order
  }

  ghost predicate Enumerates(order: seq<nat>, serials: map<nat, nat>) {
    NoDup(order) && Elements(order) == serials.Keys
  }

  ghost predicate Holds(p: Pool, button: nat, serial: nat) {
    button in p.serials && p.serials[button] == serial && IsPressed(p.states, button)
  }

  /** The same serial belongs to a pressed and to a released button. */
  ghost predicate Ambiguous(p: Pool, serial: nat) {
    && (exists b :: Holds(p, b, serial))
    && exists b :: b in p.serials && p.serials[b] == serial && !IsPressed(p.states, b)
  }

  lemma {:induction false} ScanFinds(order: seq<nat>, p: Pool, serial: nat)
    requires forall b :: b in order ==> b in p.serials
    ensures Scan(order, p.serials, p.states, serial) ==> exists b :: b in order && Holds(p, b, serial)
    ensures !Scan(order, p.serials, p.states, serial) ==>
      || (forall b :: b in order ==> p.serials[b] != serial)
      || exists b :: b in order && p.serials[b] == serial && !IsPressed(p.states, b)
  {
    if order != [] {
      assert order == [order[0]] + order[1..];
      if p.serials[order[0]] == serial {
        assert order[0] in order;
        if IsPressed(p.states, order[0]) { assert Holds(p, order[0], serial); }
      } else {
        ScanFinds(order[1..], p, serial);
      }
    }
  }

  lemma {:induction false} Enumeration(keys: set<nat>) returns (order: seq<nat>)
    ensures NoDup(order) && Elements(order) == keys
    decreases keys, 1
  {
    if keys == {} {
      order := [];
    } else {
      var k :| k in keys;
      order := EnumerationFrom(keys, k);
    }
  }

  lemma EnumerationFrom(keys: set<nat>, k: nat) returns (order: seq<nat>)
    requires k in keys
    ensures order != [] && order[0] == k && NoDup(order) && Elements(order) == keys
    decreases keys, 0
  {
    var rest := Enumeration(keys - {k});
    order := [k] + rest;
    NoDupCons(k, rest);
    assert Elements(order) == {k} + Elements(rest) == keys;
  }

  ghost predicate AlwaysExact(p: Pool, serial: nat) {
    forall order {:trigger Enumerates(order, p.serials)} :: Enumerates(order, p.serials) ==>
      (Scan(order, p.serials, p.states, serial) <==> exists b :: Holds(p, b, serial))
  }

  /** Whatever the order of the container, the answer is right if and only if the serial is not shared
      by a pressed and a released button. */
  lemma GrabIsExactIff(p: Pool, serial: nat)
    ensures AlwaysExact(p, serial) <==> !Ambiguous(p, serial)
  {
    if Ambiguous(p, serial) {
      var b :| b in p.serials && p.serials[b] == serial && !IsPressed(p.states, b);
      var order := EnumerationFrom(p.serials.Keys, b);
      assert Enumerates(order, p.serials) && !Scan(order, p.serials, p.states, serial);
    } else {
      forall order | Enumerates(order, p.serials)
        ensures Scan(order, p.serials, p.states, serial) <==> exists b :: Holds(p, b, serial)
      {
        ScanFinds(order, p, serial);
      }
    }
  }

  // ---------------------------------------------------------------- what every run keeps

  /** The serial of the press that holds the button down, read off the history alone. */
  function HeldWith(history: seq<Event>, button: nat): Option<nat> {
    if history == [] then None
    else
      var e := history[|history| - 1];
      if e.button == button then (if e.Press? then Some(e.serial) else None)
      else HeldWith(history[..|history| - 1], button)
  }

  ghost predicate Valid(p: Pool) {
    && p.serials.Keys == p.states.Keys == p.stamps.Keys
    && (forall b :: b in p.stamps ==> p.stamps[b] <= p.clock && p.serials[b] == Wire(p.stamps[b]))
    && (forall a, b :: a in p.stamps && b in p.stamps && a != b ==> p.stamps[a] != p.stamps[b])
    && (forall b: nat, s: nat {:trigger Holds(p, b, s)} :: Holds(p, b, s) <==> HeldWith(p.history, b) == Some(s))
  }

  /** No button was last used 2^32 serials ago, or more. */
  ghost predicate Young(p: Pool) {
    forall b :: b in p.stamps ==> p.clock - p.stamps[b] < SERIAL_LIMIT
  }

  lemma ButtonKeeps(p: Pool, button: nat, state: ButtonState)
    requires Valid(p)
    ensures Valid(DoButton(p, button, state))
  {
    var q := DoButton(p, button, state);
    forall b: nat, s: nat ensures Holds(q, b, s) <==> HeldWith(q.history, b) == Some(s) {
      HeldAfter(p, button, state, b, s);
    }
    hide Holds, HeldWith, Wire;
  }

  lemma HeldAfter(p: Pool, button: nat, state: ButtonState, b: nat, s: nat)
    requires Valid(p)
    ensures
      var q := DoButton(p, button, state);
      Holds(q, b, s) <==> HeldWith(q.history, b) == Some(s)
  {
    var q := DoButton(p, button, state);
    assert q.history[..|q.history| - 1] == p.history;
    if b != button { assert Holds(p, b, s) <==> HeldWith(p.history, b) == Some(s); }
  }

  lemma YoungSerialsDiffer(p: Pool, a: nat, b: nat)
    requires Valid(p) && Young(p) && a in p.serials && b in p.serials && a != b
    ensures p.serials[a] != p.serials[b]
  {
    if p.stamps[a] < p.stamps[b] { WireIsInjective(p.stamps[a], p.stamps[b]); }
    else { WireIsInjective(p.stamps[b], p.stamps[a]); }
  }

  // ---------------------------------------------------------------- runs

  datatype Op = Button(button: nat, state: ButtonState) | Other

  ghost function Run(p: Pool, ops: seq<Op>): (q: Pool)
    requires Valid(p)
    ensures Valid(q)
    decreases |ops|
  {
    if ops == [] then p
    else if ops[0].Button? then
      ButtonKeeps(p, ops[0].button, ops[0].state);
      Run(DoButton(p, ops[0].button, ops[0].state), ops[1..])
    else
      OtherKeeps(p);
      Run(DoOther(p), ops[1..])
  }

  lemma OtherKeeps(p: Pool)
    requires Valid(p)
    ensures Valid(DoOther(p))
  {
    var q := DoOther(p);
    forall b: nat, s: nat ensures Holds(q, b, s) <==> HeldWith(q.history, b) == Some(s) {
      assert Holds(p, b, s) <==> HeldWith(p.history, b) == Some(s);
    }
  }

  /** After any run that leaves no serial 2^32 draws behind, a serial is accepted exactly when the press
      that holds some button down was sent with it, and then it is the press of that button alone. */
  lemma GrabNamesThePress(clock: nat, ops: seq<Op>, order: seq<nat>, serial: nat)
    requires Young(Run(Start(clock), ops)) && Enumerates(order, Run(Start(clock), ops).serials)
    ensures
      var q := Run(Start(clock), ops);
      && (Scan(order, q.serials, q.states, serial) <==> exists b: nat :: HeldWith(q.history, b) == Some(serial))
      && forall a: nat, b: nat :: HeldWith(q.history, a) == HeldWith(q.history, b) == Some(serial) ==> a == b
  {
    hide Run, Valid, Young;
    YoungGrabIsExact(Run(Start(clock), ops), order, serial);
  }

  lemma YoungGrabIsExact(q: Pool, order: seq<nat>, serial: nat)
    requires Valid(q) && Young(q) && Enumerates(order, q.serials)
    ensures forall b :: b in order ==> b in q.serials
    ensures Scan(order, q.serials, q.states, serial) <==> exists b: nat :: HeldWith(q.history, b) == Some(serial)
    ensures forall a: nat, b: nat :: HeldWith(q.history, a) == HeldWith(q.history, b) == Some(serial) ==> a == b
  {
    forall a, b | a in q.serials && b in q.serials && a != b ensures q.serials[a] != q.serials[b] {
      YoungSerialsDiffer(q, a, b);
    }
    HeldIsHistory(q, serial);
    assert forall b :: b in order ==> b in Elements(order);
    hide Valid, Young, HeldWith, Scan;
    assert !Ambiguous(q, serial);
    GrabIsExactIff(q, serial);
  }

  lemma HeldIsHistory(q: Pool, serial: nat)
    requires Valid(q)
    ensures (exists b :: Holds(q, b, serial)) <==> exists b: nat :: HeldWith(q.history, b) == Some(serial)
    ensures forall b: nat :: HeldWith(q.history, b) == Some(serial) ==> Holds(q, b, serial)
  {
    hide HeldWith;
    assert forall b: nat :: Holds(q, b, serial) <==> HeldWith(q.history, b) == Some(serial);
    if exists b :: Holds(q, b, serial) {
      var b :| Holds(q, b, serial);
      assert HeldWith(q.history, b) == Some(serial);
    }
    if exists b: nat :: HeldWith(q.history, b) == Some(serial) {
      var b: nat :| HeldWith(q.history, b) == Some(serial);
      assert Holds(q, b, serial);
    }
  }

  lemma {:induction false} RunAppend(p: Pool, a: seq<Op>, b: seq<Op>)
    requires Valid(p)
    ensures Run(p, a + b) == Run(Run(p, a), b)
    decreases |a|
  {
    hide Valid;
    if a == [] {
      assert a + b == b;
    } else {
      assert (a + b)[0] == a[0] && (a + b)[1..] == a[1..] + b;
      if a[0].Button? { ButtonKeeps(p, a[0].button, a[0].state); } else { OtherKeeps(p); }
      RunAppend(if a[0].Button? then DoButton(p, a[0].button, a[0].state) else DoOther(p), a[1..], b);
    }
  }

  lemma RunButton(p: Pool, button: nat, state: ButtonState)
    requires Valid(p)
    ensures Run(p, [Button(button, state)]) == DoButton(p, button, state)
  {
    assert [Button(button, state)][1..] == [];
  }

  /** The rest of the server draws `n` serials. */
  function Others(n: nat): seq<Op> {
    if n == 0 then [] else [Other] + Others(n - 1)
  }

  lemma {:induction false} RunOthers(p: Pool, n: nat)
    requires Valid(p)
    ensures Run(p, Others(n)) == p.(clock := p.clock + n)
    decreases n
  {
    if n > 0 {
      assert Others(n)[1..] == Others(n - 1);
      OtherKeeps(p);
      RunOthers(DoOther(p), n - 1);
    }
  }

  /** The serial of the press that holds the button down, read off the operations alone: the `n`-th one
      draws the `n`-th serial. */
  function PressedBy(clock: nat, ops: seq<Op>, button: nat): Option<nat> {
    if ops == [] then None
    else
      var op := ops[|ops| - 1];
      if op.Button? && op.button == button then (if op.state.Pressed? then Some(Wire(clock + |ops|)) else None)
      else PressedBy(clock, ops[..|ops| - 1], button)
  }

  lemma {:induction false} HistoryFollows(clock: nat, ops: seq<Op>, button: nat)
    ensures Run(Start(clock), ops).clock == clock + |ops|
    ensures HeldWith(Run(Start(clock), ops).history, button) == PressedBy(clock, ops, button)
  {
    hide Valid, Run, Wire;
    if ops == [] {
      RunNothing(Start(clock));
    } else {
      var init, last := ops[..|ops| - 1], ops[|ops| - 1];
      assert ops == init + [last];
      HistoryFollows(clock, init, button);
      RunAppend(Start(clock), init, [last]);
      LastStep(Run(Start(clock), init), last, button);
    }
  }

  lemma RunNothing(p: Pool)
    requires Valid(p)
    ensures Run(p, []) == p
  {
  }

  lemma LastStep(p: Pool, op: Op, button: nat)
    requires Valid(p)
    ensures
      var q := Run(p, [op]);
      && q.clock == p.clock + 1
      && HeldWith(q.history, button)
         == if op.Button? && op.button == button
            then (if op.state.Pressed? then Some(Wire(p.clock + 1)) else None)
            else HeldWith(p.history, button)
  {
    assert [op][1..] == [];
    if op.Button? {
      ButtonKeeps(p, op.button, op.state);
      var q := DoButton(p, op.button, op.state);
      assert q.history[..|q.history| - 1] == p.history;
    } else {
      OtherKeeps(p);
    }
    hide Valid, Wire;
  }

  /** The same told by the operations: a serial is accepted exactly when it was drawn for a press, and that
      press is the last that happened to its button. */
  lemma GrabNamesTheLastPress(clock: nat, ops: seq<Op>, order: seq<nat>, serial: nat)
    requires Young(Run(Start(clock), ops)) && Enumerates(order, Run(Start(clock), ops).serials)
    ensures
      var q := Run(Start(clock), ops);
      Scan(order, q.serials, q.states, serial) <==> exists b: nat :: PressedBy(clock, ops, b) == Some(serial)
  {
    hide Run, Valid, Young, HeldWith, PressedBy, Scan;
    GrabNamesThePress(clock, ops, order, serial);
    var q := Run(Start(clock), ops);
    if b: nat :| HeldWith(q.history, b) == Some(serial) { HistoryFollows(clock, ops, b); }
    if b: nat :| PressedBy(clock, ops, b) == Some(serial) { HistoryFollows(clock, ops, b); }
  }

  /** `released` is let go, and the next press but 2^32 - 1 draws is that of `pressed`. */
  function AroundTheClock(released: nat, pressed: nat): seq<Op> {
    [Button(released, Released)] + Others(SERIAL_LIMIT - 1) + [Button(pressed, Pressed)]
  }

  /** Without that bound the answer can be wrong, from any start: after such a run the released button
      shares the serial of the pressed one. */
  lemma OldSerialIsAmbiguous(clock: nat, released: nat, pressed: nat)
    requires released != pressed
    ensures
      var q := Run(Start(clock), AroundTheClock(released, pressed));
      && Ambiguous(q, Wire(clock + 1)) && !AlwaysExact(q, Wire(clock + 1))
      && HeldWith(q.history, pressed) == Some(Wire(clock + 1)) && HeldWith(q.history, released) == None
  {
    hide Run, Valid, Others, DoButton, AlwaysExact, Ambiguous, HeldWith, Wire;
    var q := AroundTheClockIs(clock, released, pressed);
    BothButtons(clock, released, pressed, q);
    GrabIsExactIff(q, Wire(clock + 1));
  }

  lemma AroundTheClockIs(clock: nat, released: nat, pressed: nat) returns (q: Pool)
    ensures q == Run(Start(clock), AroundTheClock(released, pressed))
    ensures q == DoButton(DoButton(Start(clock), released, Released).(clock := clock + SERIAL_LIMIT), pressed, Pressed)
  {
    hide Run, Valid, Others, Wire;
    var p, n := Start(clock), SERIAL_LIMIT - 1;
    var first, last := [Button(released, Released)], [Button(pressed, Pressed)];
    RunAppend(p, first, Others(n));
    RunAppend(p, first + Others(n), last);
    RunButton(p, released, Released);
    var p1 := Run(p, first);
    RunOthers(p1, n);
    RunButton(Run(p1, Others(n)), pressed, Pressed);
    q := Run(p, AroundTheClock(released, pressed));
  }

  lemma SameSerial(clock: nat)
    ensures Wire(clock + SERIAL_LIMIT) == Wire(clock)
  {
  }

  lemma BothButtons(clock: nat, released: nat, pressed: nat, q: Pool)
    requires released != pressed
    requires q == DoButton(DoButton(Start(clock), released, Released).(clock := clock + SERIAL_LIMIT), pressed, Pressed)
    ensures Ambiguous(q, Wire(clock + 1))
    ensures HeldWith(q.history, pressed) == Some(Wire(clock + 1)) && HeldWith(q.history, released) == None
  {
    SameSerial(clock + 1);
    hide Wire;
    var h := [Release(released, Wire(clock + 1))];
    assert q.history == h + [Press(pressed, Wire(clock + 1))] && q.history[..1] == h && h[..0] == [];
    assert Holds(q, pressed, Wire(clock + 1));
    assert q.serials[released] == Wire(clock + 1) && !IsPressed(q.states, released);
  }

  // ---------------------------------------------------------------- the program

  class PointerPool {
    var buttonSerials: map<nat, nat>
    var buttonStates: map<nat, ButtonState>
    /** The display's serial counter. */
    var serial: nat
    ghost var stamps: map<nat, nat>
    ghost var clock: nat
    ghost var history: seq<Event>

    ghost function Snap(): Pool
      reads this
    {
      Pool(buttonSerials, buttonStates, stamps, clock, history)
    }

    ghost predicate Sound()
      reads this
    {
      Valid(Snap()) && serial == Wire(clock)
    }

    constructor (serial: nat)
      requires serial < SERIAL_LIMIT
      ensures Sound() && Snap() == Start(serial)
    {
      buttonSerials, buttonStates, this.serial := map[], map[], serial;
      stamps, clock, history := map[], serial, [];
    }

    method DrawSerial() returns (r: nat)
      requires serial == Wire(clock)
      modifies this`serial, this`clock
      ensures clock == old(clock) + 1 && r == serial == Wire(clock)
    {
      serial := NextSerial(serial);
      clock := clock + 1;
      r := serial;
    }

    method ButtonPressed(button: nat)
      requires Sound()
      modifies this
      ensures Sound() && Snap() == DoButton(old(Snap()), button, Pressed)
    {
      ButtonKeeps(Snap(), button, Pressed);
      hide Valid;
      var drawn := DrawSerial();
      buttonSerials := buttonSerials[button := drawn];
      buttonStates := buttonStates[button := Pressed];
      stamps, history := stamps[button := clock], history + [Press(button, drawn)];
    }

    method ButtonReleased(button: nat)
      requires Sound()
      modifies this
      ensures Sound() && Snap() == DoButton(old(Snap()), button, Released)
    {
      ButtonKeeps(Snap(), button, Released);
      hide Valid;
      var drawn := DrawSerial();
      buttonSerials := buttonSerials[button := drawn];
      buttonStates := buttonStates[button := Released];
      stamps, history := stamps[button := clock], history + [Release(button, drawn)];
    }

    method IsButtonPressed(button: nat) returns (pressed: bool)
      ensures pressed == IsPressed(buttonStates, button)
    {
      if button !in buttonStates { return false; }
      pressed := buttonStates[button] == Pressed;
    }

    /** Whatever button the container yields first decides. */
    method HasImplicitGrab(serial: nat) returns (grab: bool)
      ensures grab ==> exists b :: Holds(Snap(), b, serial)
      ensures !grab && (exists b :: Holds(Snap(), b, serial)) ==> Ambiguous(Snap(), serial)
    {
      var rest := buttonSerials.Keys;
      while rest != {}
        invariant rest <= buttonSerials.Keys
        invariant forall b :: b in buttonSerials && b !in rest ==> buttonSerials[b] != serial
        decreases rest
      {
        var b :| b in rest;
        if buttonSerials[b] == serial {
          grab := IsButtonPressed(b);
          if grab { assert Holds(Snap(), b, serial); }
          return;
        }
        rest := rest - {b};
      }
      return false;
    }
  }
}
