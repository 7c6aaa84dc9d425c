/** Who is told that a source is not the selection any more, and how often. Every device that set a
    source claims it, and so does the pool; each claim ends with one cancel event. */
module SelectionCancels {
  import opened Seqs
  import opened Devices
  import opened SelectionFocus

  // ---------------------------------------------------------------- counting

  /** How often `s` was cancelled so far. */
  function Cancelled(p: Pool, s: Source): nat {
    multiset(p.cancels)[s]
  }

  ghost predicate Has(p: Pool, d: Device, s: Source) {
    d in p.desks && p.desks[d].selection == Some(s)
  }

  /** How many devices of the list have `s` as their selection. */
  ghost function Holders(p: Pool, list: seq<Device>, s: Source): nat
    decreases |list|
  {
    if list == [] then 0 else One(Has(p, list[0], s)) + Holders(p, list[1..], s)
  }

  /** The devices that have `s` as their selection, and the pool if it does. */
  ghost function Claims(p: Pool, s: Source): nat {
    Holders(p, p.devices, s) + One(p.source == Some(s))
  }

  lemma {:induction false} HoldersAppend(p: Pool, a: seq<Device>, b: seq<Device>, s: Source)
    ensures Holders(p, a + b, s) == Holders(p, a, s) + Holders(p, b, s)
    decreases |a|
  {
    if a == [] {
      assert a + b == b;
    } else {
      assert (a + b)[0] == a[0] && (a + b)[1..] == a[1..] + b;
      HoldersAppend(p, a[1..], b, s);
    }
  }

  /** Only the selections of the listed devices count. */
  lemma {:induction false} SameHolders(p: Pool, q: Pool, list: seq<Device>, s: Source)
    requires forall d :: d in list ==> (Has(p, d, s) <==> Has(q, d, s))
    ensures Holders(p, list, s) == Holders(q, list, s)
    decreases |list|
  {
    if list != [] { SameHolders(p, q, list[1..], s); }
  }

  /** One device changes its selection. */
  lemma {:induction false} OneHolder(p: Pool, q: Pool, list: seq<Device>, d: Device, s: Source)
    requires NoDup(list) && d in list
    requires forall x :: x in list && x != d ==> (Has(p, x, s) <==> Has(q, x, s))
    ensures Holders(q, list, s) + One(Has(p, d, s)) == Holders(p, list, s) + One(Has(q, d, s))
    decreases |list|
  {
    assert list == [list[0]] + list[1..];
    NoDupCons(list[0], list[1..]);
    if list[0] == d { SameHolders(p, q, list[1..], s); } else { OneHolder(p, q, list[1..], d, s); }
  }

  lemma {:induction false} NoHolders(p: Pool, list: seq<Device>, s: Source)
    ensures Holders(p, list, s) > 0 <==> exists d :: d in list && Has(p, d, s)
    decreases |list|
  {
    if list != [] {
      assert list == [list[0]] + list[1..];
      NoHolders(p, list[1..], s);
      if Has(p, list[0], s) { assert list[0] in list; }
    }
  }

  /** Some device of the list has `lost` and its client has the keyboard focus. */
  ghost predicate FocusHolds(p: Pool, list: seq<Device>, lost: Source) {
    exists d :: d in list && Has(p, d, lost) && HasFocus(p, d)
  }

  // ---------------------------------------------------------------- how often a step cancels a source

  /** The pool gives up its source for another. */
  function FromPool(p: Pool, source: Option<Source>, s: Source): nat {
    One(p.source == Some(s) && source != Some(s))
  }

  /** The cancel events for `s`, read off the state before the step. */
  ghost function CancelsOf(p: Pool, op: Op, s: Source): nat
    requires Valid(p) && Enabled(p, op)
  {
    match op
    case Select(source) => FromPool(p, source, s)
    case DeviceSelect(d, source) =>
      if p.desks[d].selection == source then 0
      else One(Has(p, d, s)) + if HasFocus(p, d) then FromPool(p, source, s) else 0
    case SourceGone(lost) =>
      if lost == s then Holders(p, p.devices, s)
      else One(p.source == Some(s) && FocusHolds(p, p.devices, lost))
    case _ => 0
  }

  lemma ListedOnce(before: seq<Source>, source: Option<Source>, s: Source)
    ensures multiset(before + Listed(source))[s] == multiset(before)[s] + One(source == Some(s))
  {
    assert multiset(before + Listed(source)) == multiset(before) + multiset(Listed(source));
  }

  lemma SelectCancels(p: Pool, source: Option<Source>, s: Source)
    ensures Cancelled(DoSelect(p, source), s) == Cancelled(p, s) + FromPool(p, source, s)
  {
    ListedOnce(p.cancels, p.source, s);
  }

  lemma DeviceSelectCancels(p: Pool, d: Device, source: Option<Source>, s: Source)
    requires d in p.desks
    ensures Cancelled(DoDeviceSelect(p, d, source), s) == Cancelled(p, s)
         + if p.desks[d].selection == source then 0
           else One(Has(p, d, s)) + if HasFocus(p, d) then FromPool(p, source, s) else 0
  {
    ListedOnce(p.cancels, p.desks[d].selection, s);
    SelectCancels(Chosen(p, d, source), source, s);
  }

  /** What one device's withdrawal leaves to the others. */
  lemma WithdrawOne(p: Pool, d: Device, x: Device)
    requires d in p.desks && x in p.desks
    ensures
      var q := DoDeviceSelect(p, d, None);
      && q.desks.Keys == p.desks.Keys && q.devices == p.devices && q.keyboardFocus == p.keyboardFocus
      && q.desks[x].selection == (if x == d then None else p.desks[x].selection)
      && q.source == if HasFocus(p, d) && p.desks[d].selection.Some? then None else p.source
  {
  }

  lemma {:induction false} WithdrawnCount(p: Pool, list: seq<Device>, lost: Source, s: Source)
    requires NoDup(list) && p.source != Some(lost) && forall d :: d in list ==> d in p.desks
    ensures Cancelled(Withdrawn(p, list, lost), s) == Cancelled(p, s)
         + if lost == s then Holders(p, list, s) else One(p.source == Some(s) && FocusHolds(p, list, lost))
    decreases |list|
  {
    if list != [] {
      var d, rest := list[0], list[1..];
      assert list == [d] + rest;
      NoDupCons(d, rest);
      assert FocusHolds(p, list, lost) <==> (Has(p, d, lost) && HasFocus(p, d)) || FocusHolds(p, rest, lost) by {
        FocusSplit(p, d, rest, lost);
      }
      if Has(p, d, lost) {
        var q := DoDeviceSelect(p, d, None);
        forall x | x in p.desks
          ensures x in q.desks && q.desks[x].selection == (if x == d then None else p.desks[x].selection)
          ensures HasFocus(q, x) <==> HasFocus(p, x)
        {
          WithdrawOne(p, d, x);
        }
        WithdrawOne(p, d, d);
        DeviceSelectCancels(p, d, None, s);
        hide DoDeviceSelect, Cancelled;
        SameHolders(p, q, rest, s);
        WithdrawnCount(q, rest, lost, s);
        assert FocusHolds(q, rest, lost) <==> FocusHolds(p, rest, lost);
      } else {
        WithdrawnCount(p, rest, lost, s);
      }
    }
  }

  lemma FocusSplit(p: Pool, d: Device, rest: seq<Device>, lost: Source)
    ensures FocusHolds(p, [d] + rest, lost) <==> (Has(p, d, lost) && HasFocus(p, d)) || FocusHolds(p, rest, lost)
  {
    hide Has, HasFocus;
    assert d in [d] + rest;
  }

  /** The pool drops the source first, and tells nobody. */
  lemma GoneCancels(p: Pool, lost: Source, s: Source)
    requires Valid(p)
    ensures Cancelled(DoSourceGone(p, lost), s) == Cancelled(p, s) + CancelsOf(p, SourceGone(lost), s)
  {
    var q := Dropped(p, lost);
    DroppedSelections(p, lost);
    hide Valid, Dropped;
    WithdrawnCount(q, p.devices, lost, s);
    SameHolders(p, q, p.devices, s);
    assert FocusHolds(q, p.devices, lost) <==> FocusHolds(p, p.devices, lost);
  }

  lemma DroppedSelections(p: Pool, lost: Source)
    requires Valid(p)
    ensures NoDup(p.devices) && forall d :: d in p.devices ==> d in p.desks
    ensures
      var q := Dropped(p, lost);
      && q.source == (if p.source == Some(lost) then None else p.source) && q.cancels == p.cancels
      && q.devices == p.devices && q.keyboardFocus == p.keyboardFocus
      && forall d :: d in p.devices ==> d in q.desks && q.desks[d].selection == p.desks[d].selection
  {
    hide DeskOk, NoDup;
  }

  /** Exactly when and how often a step cancels `s`. */
  lemma StepCancels(p: Pool, op: Op, s: Source)
    requires Valid(p) && Enabled(p, op)
    ensures Cancelled(Step(p, op), s) == Cancelled(p, s) + CancelsOf(p, op, s)
  {
    match op {
      case Select(source) => SelectCancels(p, source, s);
      case DeviceSelect(d, source) => DeviceSelectCancels(p, d, source, s);
      case SourceGone(lost) => GoneCancels(p, lost, s);
      case _ => assert Step(p, op).cancels == p.cancels;
    }
  }

  /** A step that is not the destruction of a source cancels `s` at most twice, and twice exactly when a
      device in focus replaces its own selection while the pool has it: then both tell the source. */
  lemma OwnReplacementCancelsTwice(p: Pool, op: Op, s: Source)
    requires Valid(p) && Enabled(p, op) && !op.SourceGone?
    ensures Cancelled(Step(p, op), s) <= Cancelled(p, s) + 2
    ensures Cancelled(Step(p, op), s) == Cancelled(p, s) + 2 <==>
      && op.DeviceSelect? && Has(p, op.device, s) && p.source == Some(s)
      && HasFocus(p, op.device) && op.source != Some(s)
  {
    StepCancels(p, op, s);
    hide Step, Valid, Cancelled;
  }

  /** A source can be cancelled by some step if and only if the pool has it or some device does. */
  lemma CanBeCancelledIff(p: Pool, s: Source)
    requires Valid(p)
    ensures (exists op :: Enabled(p, op) && CancelsOf(p, op, s) > 0) <==> Claims(p, s) > 0
  {
    NoHolders(p, p.devices, s);
    if p.source == Some(s) { assert Enabled(p, Select(None)) && CancelsOf(p, Select(None), s) > 0; }
    else if Claims(p, s) > 0 {
      var d :| d in p.devices && Has(p, d, s);
      assert Enabled(p, DeviceSelect(d, None)) && CancelsOf(p, DeviceSelect(d, None), s) > 0;
    }
    if op :| Enabled(p, op) && CancelsOf(p, op, s) > 0 {
      if op.DeviceSelect? { assert Has(p, op.device, s) ==> op.device in p.devices; }
    }
  }

  // ---------------------------------------------------------------- claims and cancels balance

  /** How many claims on `s` a step makes. */
  ghost function Gained(p: Pool, op: Op, s: Source): nat
    requires Valid(p) && Enabled(p, op)
  {
    match op
    case Select(source) => One(source == Some(s) && p.source != source)
    case DeviceSelect(d, source) =>
      if source != Some(s) || p.desks[d].selection == source then 0
      else 1 + One(HasFocus(p, d) && p.source != source)
    case _ => 0
  }

  /** How many claims on `s` end without an event: with the device that made it, and the pool's own
      when the source is destroyed. */
  ghost function Lost(p: Pool, op: Op, s: Source): nat
    requires Valid(p) && Enabled(p, op)
  {
    match op
    case DeviceGone(d) => One(Has(p, d, s))
    case SourceGone(lost) => One(lost == s && p.source == Some(s))
    case _ => 0
  }

  /** What a step leaves and has cancelled is what there was and what it added. */
  ghost predicate Balanced(p: Pool, q: Pool, s: Source, gained: nat, lost: nat) {
    Cancelled(q, s) + Claims(q, s) + lost == Cancelled(p, s) + Claims(p, s) + gained
  }

  lemma SameSelections(p: Pool, q: Pool, s: Source)
    requires Valid(p) && q.devices == p.devices && q.source == p.source && q.cancels == p.cancels
    requires forall d :: d in p.devices ==> d in q.desks && q.desks[d].selection == p.desks[d].selection
    ensures Balanced(p, q, s, 0, 0)
  {
    SameHolders(p, q, p.devices, s);
  }

  lemma RegisterBalances(p: Pool, d: Device, s: Source)
    requires Valid(p) && d !in p.devices
    ensures Balanced(p, DoRegister(p, d), s, 0, 0)
  {
    var q := DoRegister(p, d);
    HoldersAppend(q, p.devices, [d], s);
    SameHolders(p, q, p.devices, s);
    assert [d][1..] == [];
  }

  lemma DeviceGoneBalances(p: Pool, d: Device, s: Source)
    requires Valid(p) && d in p.devices
    ensures Balanced(p, DoDeviceGone(p, d), s, 0, One(Has(p, d, s)))
  {
    var q := DoDeviceGone(p, d);
    RemoveOneIsWithout(p.devices, d);
    SameHolders(p, q, q.devices, s);
    WithoutHolder(p, p.devices, d, s);
  }

  lemma {:induction false} WithoutHolder(p: Pool, list: seq<Device>, d: Device, s: Source)
    requires NoDup(list) && d in list
    ensures Holders(p, Without(list, d), s) + One(Has(p, d, s)) == Holders(p, list, s)
    decreases |list|
  {
    assert list == [list[0]] + list[1..];
    NoDupCons(list[0], list[1..]);
    if list[0] == d {
      assert Without(list[1..], d) == list[1..];
    } else {
      WithoutHolder(p, list[1..], d, s);
      assert ([list[0]] + Without(list[1..], d))[1..] == Without(list[1..], d);
    }
  }

  lemma SelectBalances(p: Pool, source: Option<Source>, s: Source)
    requires Valid(p)
    ensures Balanced(p, DoSelect(p, source), s, One(source == Some(s) && p.source != source), 0)
  {
    SelectCancels(p, source, s);
    SameHolders(p, DoSelect(p, source), p.devices, s);
  }

  lemma ChosenBalances(p: Pool, d: Device, source: Option<Source>, s: Source)
    requires Valid(p) && d in p.devices && p.desks[d].selection != source
    ensures Balanced(p, Chosen(p, d, source), s, One(source == Some(s)), 0)
  {
    ListedOnce(p.cancels, p.desks[d].selection, s);
    OneHolder(p, Chosen(p, d, source), p.devices, d, s);
  }

  lemma DeviceSelectBalances(p: Pool, d: Device, source: Option<Source>, s: Source)
    requires Valid(p) && d in p.devices
    ensures Balanced(p, DoDeviceSelect(p, d, source), s, Gained(p, DeviceSelect(d, source), s), 0)
  {
    if p.desks[d].selection != source {
      ChosenBalances(p, d, source, s);
      ChosenKeeps(p, d, source);
      SelectBalances(Chosen(p, d, source), source, s);
      hide Valid, DoSelect, Claims, Cancelled;
    }
  }

  lemma {:induction false} WithdrawnBalances(p: Pool, list: seq<Device>, lost: Source, s: Source)
    requires Valid(p) && forall d :: d in list ==> d in p.devices
    ensures Balanced(p, Withdrawn(p, list, lost), s, 0, 0)
    decreases |list|
  {
    if list != [] {
      hide Valid, Claims, Cancelled;
      if p.desks[list[0]].selection == Some(lost) {
        DeviceSelectKeeps(p, list[0], None);
        DeviceSelectBalances(p, list[0], None, s);
        WithdrawnBalances(DoDeviceSelect(p, list[0], None), list[1..], lost, s);
      } else {
        WithdrawnBalances(p, list[1..], lost, s);
      }
    }
  }

  lemma SourceGoneBalances(p: Pool, lost: Source, s: Source)
    requires Valid(p)
    ensures Balanced(p, DoSourceGone(p, lost), s, 0, One(lost == s && p.source == Some(s)))
  {
    var q := Dropped(p, lost);
    DroppedSelections(p, lost);
    DroppedKeeps(p, lost);
    hide Valid, Dropped;
    SameHolders(p, q, p.devices, s);
    WithdrawnBalances(q, p.devices, lost, s);
  }

  lemma StepBalances(p: Pool, op: Op, s: Source)
    requires Valid(p) && Enabled(p, op)
    ensures Balanced(p, Step(p, op), s, Gained(p, op, s), Lost(p, op, s))
  {
    hide Balanced, DoDeviceSelect, DoSourceGone, DoRegister, DoDeviceGone, DoSelect;
    match op {
      case Register(d) => RegisterBalances(p, d, s);
      case DeviceGone(d) => DeviceGoneBalances(p, d, s);
      case Focus(surface) => SameSelections(p, DoFocus(p, surface), s);
      case SurfaceGone(surface) => SameSelections(p, DoSurfaceGone(p, surface), s);
      case Select(source) => SelectBalances(p, source, s);
      case DeviceSelect(d, source) => DeviceSelectBalances(p, d, source, s);
      case SourceGone(lost) => SourceGoneBalances(p, lost, s);
    }
  }

  ghost function GainedIn(p: Pool, ops: seq<Op>, s: Source): nat
    requires Valid(p) && Run(p, ops).Some?
    decreases |ops|
  {
    if ops == [] then 0
    else StepKeeps(p, ops[0]); Gained(p, ops[0], s) + GainedIn(Step(p, ops[0]), ops[1..], s)
  }

  ghost function LostIn(p: Pool, ops: seq<Op>, s: Source): nat
    requires Valid(p) && Run(p, ops).Some?
    decreases |ops|
  {
    if ops == [] then 0
    else StepKeeps(p, ops[0]); Lost(p, ops[0], s) + LostIn(Step(p, ops[0]), ops[1..], s)
  }

  lemma {:induction false} RunBalances(p: Pool, ops: seq<Op>, q: Pool, s: Source)
    requires Valid(p) && Run(p, ops) == Some(q)
    ensures Balanced(p, q, s, GainedIn(p, ops, s), LostIn(p, ops, s))
    decreases |ops|
  {
    if ops != [] {
      StepKeeps(p, ops[0]);
      StepBalances(p, ops[0], s);
      hide Step, Enabled, Gained, Lost, Claims, Cancelled, Valid;
      RunBalances(Step(p, ops[0]), ops[1..], q, s);
    }
  }

  /** After any run: every claim ever made on a source was answered by exactly one cancel event, ended
      with its device or in the destruction of the source, or still stands. */
  lemma CancelsAreConserved(ops: seq<Op>, q: Pool, s: Source)
    requires Run(Start(), ops) == Some(q)
    ensures Cancelled(q, s) + Claims(q, s) + LostIn(Start(), ops, s) == GainedIn(Start(), ops, s)
  {
    RunBalances(Start(), ops, q, s);
  }

  // ---------------------------------------------------------------- a second cancel

  /** No client names `s` again. */
  ghost predicate NamesAgain(ops: seq<Op>, s: Source) {
    exists op :: op in ops && ((op.Select? || op.DeviceSelect?) && op.source == Some(s))
  }

  lemma {:induction false} NothingGained(p: Pool, ops: seq<Op>, s: Source)
    requires Valid(p) && Run(p, ops).Some? && !NamesAgain(ops, s)
    ensures GainedIn(p, ops, s) == 0
    decreases |ops|
  {
    if ops != [] {
      assert ops[0] in ops;
      StepKeeps(p, ops[0]);
      hide Step, Valid;
      NothingGained(Step(p, ops[0]), ops[1..], s);
    }
  }

  /** Without being named again, a source is cancelled at most once for every claim. */
  lemma CancelsAreBounded(p: Pool, ops: seq<Op>, q: Pool, s: Source)
    requires Valid(p) && Run(p, ops) == Some(q) && !NamesAgain(ops, s)
    ensures Cancelled(q, s) <= Cancelled(p, s) + Claims(p, s)
  {
    RunBalances(p, ops, q, s);
    NothingGained(p, ops, s);
  }

  /** Whatever was cancelled before: without being named again, a source can be cancelled once more if
      and only if the pool has it or some device still has it as its selection. */
  lemma CancelledAgainIff(p: Pool, s: Source)
    requires Valid(p)
    ensures
      (exists ops: seq<Op>, q: Pool ::
        Run(p, ops) == Some(q) && !NamesAgain(ops, s) && Cancelled(q, s) > Cancelled(p, s))
      <==> (p.source == Some(s) || exists d :: d in p.devices && Has(p, d, s))
  {
    hide Valid, Run, Cancelled, NamesAgain;
    NoHolders(p, p.devices, s);
    if ops: seq<Op>, q: Pool :|
      Run(p, ops) == Some(q) && !NamesAgain(ops, s) && Cancelled(q, s) > Cancelled(p, s)
    {
      CancelsAreBounded(p, ops, q, s);
    }
    if Claims(p, s) > 0 { var ops, q := OneCancels(p, s); }
  }

  lemma OneCancels(p: Pool, s: Source) returns (ops: seq<Op>, q: Pool)
    requires Valid(p) && Claims(p, s) > 0
    ensures Run(p, ops) == Some(q) && !NamesAgain(ops, s) && Cancelled(q, s) > Cancelled(p, s)
  {
    hide Run, Cancelled;
    NoHolders(p, p.devices, s);
    var op: Op;
    if p.source == Some(s) {
      op := Select(None);
    } else {
      var d :| d in p.devices && Has(p, d, s);
      op := DeviceSelect(d, None);
    }
    ops, q := [op], Step(p, op);
    StepCancels(p, op, s);
    hide Valid, Step;
    RunOfOne(p, op);
  }

  // ---------------------------------------------------------------- two runs with a second cancel

  /** `d` alone is registered, its client has the keyboard focus, and it has made `a` the selection. */
  ghost predicate OwnsSelection(p: Pool, d: Device, s: Surface, a: Source) {
    && Valid(p) && p.devices == [d] && p.keyboardFocus == Some(s) && s.client == d.client
    && p.source == Some(a) && d in p.desks && p.desks[d].selection == Some(a) && p.cancels == []
  }

  function Owning(d: Device, s: Surface, a: Source): seq<Op> {
    [Register(d)] + [Focus(Some(s))] + [DeviceSelect(d, Some(a))]
  }

  lemma OwningRun(d: Device, s: Surface, a: Source) returns (q: Pool)
    requires s.client == d.client
    ensures Run(Start(), Owning(d, s, a)) == Some(q) && OwnsSelection(q, d, s, a)
  {
    var p1 := Step(Start(), Register(d));
    RunOfOne(Start(), Register(d));
    OneMore(Start(), [Register(d)], p1, Focus(Some(s)));
    var p2 := Step(p1, Focus(Some(s)));
    OneMore(Start(), [Register(d)] + [Focus(Some(s))], p2, DeviceSelect(d, Some(a)));
    q := Step(p2, DeviceSelect(d, Some(a)));
  }

  /** A client that takes its selection back hears of it twice at once: from its device and from the pool. */
  lemma CancelledTwiceRun(d: Device, s: Surface, a: Source)
    requires s.client == d.client
    ensures
      var r := Run(Start(), Owning(d, s, a) + [DeviceSelect(d, None)]);
      r.Some? && r.value.cancels == [a, a]
  {
    var q := OwningRun(d, s, a);
    OneMore(Start(), Owning(d, s, a), q, DeviceSelect(d, None));
    assert HasFocus(q, d);
    hide Run, Valid;
    assert DoDeviceSelect(q, d, None).cancels == [a, a];
  }

  /** A client that lost the selection to another source, and sets a third one without the keyboard
      focus, hears of its old source again. */
  lemma CancelledLaterRun(d: Device, s: Surface, a: Source, b: Source, c: Source)
    requires s.client == d.client && a != b && a != c
    ensures
      var r := Run(Start(), Owning(d, s, a) + [Select(Some(b))] + [Focus(None)] + [DeviceSelect(d, Some(c))]);
      r.Some? && r.value.cancels == [a, a] && r.value.source == Some(b)
  {
    var q := OwningRun(d, s, a);
    OneMore(Start(), Owning(d, s, a), q, Select(Some(b)));
    var q1 := Step(q, Select(Some(b)));
    OneMore(Start(), Owning(d, s, a) + [Select(Some(b))], q1, Focus(None));
    var q2 := Step(q1, Focus(None));
    OneMore(Start(), Owning(d, s, a) + [Select(Some(b))] + [Focus(None)], q2, DeviceSelect(d, Some(c)));
    hide Run, Valid;
    assert q2.cancels == [a] && q2.desks[d].selection == Some(a) && q2.keyboardFocus == None;
  }
}
