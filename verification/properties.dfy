/**
  What the event loop guarantees, stated over `Step` and `RunEvents`: what each arm does to the
  registry, the error slot, the selection and the spinner table; that an address sits in at most one
  list; and that a device is never sent a second pair or connect request while the first is pending.
*/
module LoopProperties {
  import opened Options
  import opened Types
  import opened IndexMaps
  import opened Ui
  import opened Logic

  // ---------------------------------------------------------------- vocabulary

  /** The device the loop's lookups reach for `addr`: the `paired` copy, else the `unpaired` one. */
  function Reached(app: App, addr: Address): Option<Device> {
    match Locate(app, addr)
    case None => None
    case Some(list) => Some(Entries(app, list).values[addr])
  }

  /** `addr` is not in both lists at once. */
  ghost predicate Exclusive(app: App, addr: Address) {
    !(addr in app.paired.values && addr in app.unpaired.values)
  }

  /** No address is in both lists. */
  ghost predicate Disjoint(app: App) {
    forall addr :: Exclusive(app, addr)
  }

  /** Every copy of `addr` in the registry has an operation in flight. */
  ghost predicate Busy(app: App, addr: Address) {
    (addr in app.paired.values ==> app.paired.values[addr].loading.Some?) &&
    (addr in app.unpaired.values ==> app.unpaired.values[addr].loading.Some?)
  }

  /** `effect` spawns a pair or connect worker for `addr`. */
  predicate IsRequestFor(effect: Effect, addr: Address) {
    (effect.PairRequested? || effect.ConnectRequested?) && effect.addr == addr
  }

  predicate NoRequestFor(effects: seq<Effect>, addr: Address) {
    forall i :: 0 <= i < |effects| ==> !IsRequestFor(effects[i], addr)
  }

  /** An intake that files `addr` into the list opposite to the one already holding it. */
  predicate CrossIntake(s: State, e: Event, addr: Address) {
    s.adapter && e.Addition? && e.addr == addr && e.intake.Fetched? &&
    addr in Entries(s.app, if e.intake.paired then Unpaired else Paired).values
  }

  /** Events after which `addr` may legitimately be requested again: its completion, or a fresh intake of it. */
  predicate Resets(e: Event, addr: Address) {
    e == Completion(addr) || (e.Addition? && e.addr == addr && e.intake.Fetched?)
  }

  /** The selected row points into the active list, or that list is empty. */
  predicate RowInRange(app: App) {
    var len := Entries(app, app.selectedList).Len();
    len == 0 || app.selectedRow < len
  }

  /** The list that is not `list`. */
  function Other(list: List): List {
    match list
    case Unpaired => Paired
    case Paired => Unpaired
  }

  /** `after` differs from `before` at most in the value of `addr` inside `list`. */
  ghost predicate OnlyEntryChanged(before: App, after: App, list: List, addr: Address) {
    && after.selectedList == before.selectedList && after.selectedRow == before.selectedRow
    && after.error == before.error
    && after.paired.keys == before.paired.keys && after.unpaired.keys == before.unpaired.keys
    && Entries(after, Other(list)) == Entries(before, Other(list))
    && forall a :: a != addr ==> Entries(after, list).Get(a) == Entries(before, list).Get(a)
  }

  // ---------------------------------------------------------------- the adapter and ignored inputs

  /**
    The adapter arriving is kept and starts the scanner, changing neither the UI nor the spinner
    table; a failure to get one ends the loop with its message, as does a failure to read the terminal.
  */
  lemma AdapterArrives(s: State, message: string)
    requires s.Valid()
    ensures var o := Step(s, AdapterReady);
      && o.state.adapter && o.state.app == s.app && o.state.spinners == s.spinners
      && o.effects == [ScanStarted] && o.status == Running
    ensures Step(s, AdapterFailed(message)) == Outcome(s, [], Fatal(message))
    ensures Step(s, TerminalFailed(message)) == Outcome(s, [], Fatal(message))
  {
  }

  /**
    Inputs the loop ignores: property changes other than alias, connected and paired, terminal
    events that are not keys, Esc with no error shown, and keys without a binding (while no error is
    shown; while one is, see `ErrorShownGatesKeys`). Each leaves the state as it is and starts nothing.
  */
  lemma IgnoredInputs(s: State, e: Event)
    requires s.Valid()
    requires || e.OtherTerminalEvent?
             || (e.PropertyChange? && e.property.OtherProperty?)
             || (e.KeyPress? && s.app.error.None? &&
                 (e.code.OtherKey? || e.code.Esc? || (e.code.Char? && e.code.c != 'q' && e.code.c != 's')))
    ensures Step(s, e) == Outcome(s, [], Running)
  {
  }

  // ---------------------------------------------------------------- spinner ticks and completions

  /**
    A tick advances, with wrap-around, the counter of the device its lookup reaches, when that
    device is loading; otherwise, and for an unknown address, nothing changes.
  */
  lemma TickAdvancesCounter(s: State, addr: Address)
    requires s.Valid()
    ensures var r := OnSpinnerTick(s, addr);
      && r.spinners == s.spinners && r.adapter == s.adapter
      && (Reached(s.app, addr).None? || Reached(s.app, addr).value.loading.None? ==> r == s)
      && (Reached(s.app, addr).Some? && Reached(s.app, addr).value.loading.Some? ==>
            var d := Reached(s.app, addr).value;
            && OnlyEntryChanged(s.app, r.app, Locate(s.app, addr).value, addr)
            && Reached(r.app, addr) == Some(d.(loading := Some(WrappingAdd(d.loading.value, 1)))))
  {
  }

  /** So each tick moves the device's spinner on to the next of the four frames, also across the wrap. */
  lemma TickShowsNextFrame(s: State, addr: Address)
    requires s.Valid() && Reached(s.app, addr).Some? && Reached(s.app, addr).value.loading.Some?
    ensures var n := Reached(s.app, addr).value.loading.value;
            var after := Reached(OnSpinnerTick(s, addr).app, addr);
            && after.Some?
            && var cells := RowCells(after.value, Locate(s.app, addr).value);
               cells[|cells| - 1] == THROBBERS[(n as int % 4 + 1) % 4]
  {
    TickAdvancesCounter(s, addr);
    ThrobberAdvances(Reached(s.app, addr).value.loading.value);
  }

  /**
    A completion for a known device ends its loading state and takes its spinner out of the table
    (aborting it, when there is one); for an unknown address nothing changes, the spinner entry too.
  */
  lemma CompletionEndsLoading(s: State, addr: Address)
    requires s.Valid()
    ensures var o := OnCompletion(s, addr);
      && o.state.adapter == s.adapter && o.status == Running
      && (Reached(s.app, addr).None? ==> o.state == s && o.effects == [])
      && (Reached(s.app, addr).Some? ==>
            && OnlyEntryChanged(s.app, o.state.app, Locate(s.app, addr).value, addr)
            && Reached(o.state.app, addr) == Some(Reached(s.app, addr).value.(loading := None))
            && o.state.spinners == s.spinners - {addr}
            && o.effects == (if addr in s.spinners then [SpinnerAborted(addr)] else []))
  {
  }

  // ---------------------------------------------------------------- errors

  /** A reported error replaces whatever the error slot held; nothing else changes. */
  lemma ErrorReportOverwrites(s: State, error: Error)
    requires s.Valid()
    ensures var r := OnErrorReport(s, error);
      r.app.error == Some(error) && r.(app := r.app.(error := s.app.error)) == s
  {
  }

  /**
    While an error is shown, every key but Esc (`q` included) leaves the whole state as it is and
    starts nothing; Esc closes the error and changes nothing else.
  */
  lemma ErrorShownGatesKeys(s: State, code: KeyCode, lookupError: Option<string>)
    requires s.Valid() && s.app.error.Some?
    ensures var o := Step(s, KeyPress(code, lookupError));
      && o.effects == [] && o.status == Running
      && (code != Esc ==> o.state == s)
      && (code == Esc ==> o.state.app.error == None && o.state.(app := o.state.app.(error := s.app.error)) == s)
  {
  }

  // ---------------------------------------------------------------- intake

  /**
    A discovered address. Without an adapter or after a failed fetch no list changes; the property
    stream is subscribed exactly when it was obtained. A full success files the device, not loading,
    under the list its paired flag names: in place when the address is already there, else at the
    end; the other list is untouched.
  */
  lemma IntakeFilesDevice(s: State, addr: Address, intake: Intake)
    requires s.Valid()
    ensures var o := OnAddition(s, addr, intake);
      && o.state.spinners == s.spinners && o.state.adapter == s.adapter && o.status == Running
      && (o.effects != [] <==> s.adapter && (intake.Fetched? || intake.AliasFetchFailed?))
      && (o.effects != [] ==> o.effects == [Subscribed(addr)])
      && (!s.adapter || !intake.Fetched? ==> o.state == s)
      && (s.adapter && intake.Fetched? ==>
            var into := if intake.paired then Paired else Unpaired;
            var before := Entries(s.app, into);
            var after := Entries(o.state.app, into);
            && after.Get(addr) == Some(Device(intake.alias, intake.connected, None))
            && after.keys == (if addr in before.values then before.keys else before.keys + [addr])
            && (forall a :: a != addr ==> after.Get(a) == before.Get(a))
            && Entries(o.state.app, Other(into)) == Entries(s.app, Other(into))
            && o.state.app.selectedList == s.app.selectedList && o.state.app.selectedRow == s.app.selectedRow
            && o.state.app.error == s.app.error)
  {
  }

  // ---------------------------------------------------------------- property changes

  /**
    Alias and connected changes edit the `paired` entry of the address, when there is one, and
    nothing else: `unpaired`, other devices and the order of `paired` stay as they were.
  */
  lemma AliasAndConnectedEditPairedOnly(s: State, addr: Address, property: Property)
    requires s.Valid() && (property.AliasChanged? || property.ConnectedChanged?)
    ensures var r := OnPropertyChange(s, addr, property);
      && r.spinners == s.spinners && r.adapter == s.adapter
      && r.app.unpaired == s.app.unpaired && r.app.paired.keys == s.app.paired.keys
      && r.app.selectedList == s.app.selectedList && r.app.selectedRow == s.app.selectedRow
      && r.app.error == s.app.error
      && (forall a :: a != addr ==> r.app.paired.Get(a) == s.app.paired.Get(a))
      && r.app.paired.Get(addr) == (match s.app.paired.Get(addr)
                                    case None => None
                                    case Some(d) => Some(if property.AliasChanged? then d.(alias := property.alias)
                                                         else d.(connected := property.connected)))
  {
  }

  /**
    A paired change moves the device out of the list it leaves (the rest keep their order) and into
    the other list (in place if already there, else at the end) with all its fields; when the
    device is not in the list it would leave, nothing changes.
  */
  lemma PairedChangeMovesDevice(s: State, addr: Address, paired: bool)
    requires s.Valid()
    ensures var r := OnPairedChange(s, addr, paired);
      var from := if paired then Unpaired else Paired;
      var to := Other(from);
      && r.spinners == s.spinners && r.adapter == s.adapter
      && r.app.selectedList == s.app.selectedList && r.app.selectedRow == s.app.selectedRow
      && r.app.error == s.app.error
      && (addr !in Entries(s.app, from).values ==> r == s)
      && (addr in Entries(s.app, from).values ==>
            && Entries(r.app, from).keys == Without(Entries(s.app, from).keys, addr)
            && Entries(r.app, from).Get(addr) == None
            && Entries(r.app, to).Get(addr) == Entries(s.app, from).Get(addr)
            && Entries(r.app, to).keys == (if addr in Entries(s.app, to).values then Entries(s.app, to).keys
                                           else Entries(s.app, to).keys + [addr])
            && forall a :: a != addr ==>
                 Entries(r.app, from).Get(a) == Entries(s.app, from).Get(a) &&
                 Entries(r.app, to).Get(a) == Entries(s.app, to).Get(a))
  {
    var from := if paired then Unpaired else Paired;
    var to := Other(from);
    var r := OnPairedChange(s, addr, paired);
    var (rest, removed) := ShiftRemove(Entries(s.app, from), addr);
    if removed.Some? {
      var moved := Insert(Entries(s.app, to), addr, removed.value);
      assert r.app == WithEntries(WithEntries(s.app, from, rest), to, moved);
      assert Entries(r.app, from) == rest && Entries(r.app, to) == moved;
    }
  }

  /**
    Pairing and then unpairing a device that was only in `unpaired` gives back `paired` exactly and
    `unpaired` with the same entries, the device now last.
  */
  lemma PairThenUnpairRestores(s: State, addr: Address)
    requires s.Valid() && addr in s.app.unpaired.values && addr !in s.app.paired.values
    ensures var r := OnPairedChange(OnPairedChange(s, addr, true), addr, false);
      && r.app.paired == s.app.paired
      && r.app.unpaired.values == s.app.unpaired.values
      && r.app.unpaired.keys == Without(s.app.unpaired.keys, addr) + [addr]
  {
    PairEquation(s, addr);
    UnpairEquation(OnPairedChange(s, addr, true), addr);
    RemoveAfterInsert(s.app.paired, addr, s.app.unpaired.values[addr]);
    ReinsertMovesLast(s.app.unpaired, addr);
  }

  /** The state a pairing change reaches when the device is in `unpaired`. */
  lemma PairEquation(s: State, addr: Address)
    requires s.Valid() && addr in s.app.unpaired.values
    ensures OnPairedChange(s, addr, true)
         == s.(app := s.app.(unpaired := ShiftRemove(s.app.unpaired, addr).0,
                             paired := Insert(s.app.paired, addr, s.app.unpaired.values[addr])))
  {
  }

  /** The state an unpairing change reaches when the device is in `paired`. */
  lemma UnpairEquation(s: State, addr: Address)
    requires s.Valid() && addr in s.app.paired.values
    ensures OnPairedChange(s, addr, false)
         == s.(app := s.app.(paired := ShiftRemove(s.app.paired, addr).0,
                             unpaired := Insert(s.app.unpaired, addr, s.app.paired.values[addr])))
  {
  }

  /** Unpairing a device that is not in `paired` is dropped: the state is unchanged. */
  lemma UnpairAbsentIsNoop(s: State, addr: Address)
    requires s.Valid() && addr !in s.app.paired.values
    ensures OnPairedChange(s, addr, false) == s
  {
  }

  // ---------------------------------------------------------------- navigation and rescan

  /**
    With no error shown, Down moves the selection one row down only when another row follows it
    (so never in an empty list), Up one row up only when it is not on the first row, and Left and
    Right switch the active list without touching the row. Nothing else changes and nothing is
    started; Down and Up keep a row that was in range in range.
  */
  lemma ArrowsMoveSelection(s: State, code: KeyCode, lookupError: Option<string>)
    requires s.Valid() && s.app.error.None? && (code.Down? || code.Up? || code.Left? || code.Right?)
    ensures var o := Step(s, KeyPress(code, lookupError));
      var row := s.app.selectedRow;
      var len := Entries(s.app, s.app.selectedList).Len();
      && o.effects == [] && o.status == Running
      && o.state.spinners == s.spinners && o.state.adapter == s.adapter
      && o.state.app.unpaired == s.app.unpaired && o.state.app.paired == s.app.paired
      && o.state.app.error == None
      && (code.Down? ==> o.state.app.selectedList == s.app.selectedList &&
                         o.state.app.selectedRow == (if row + 1 < len then row + 1 else row))
      && (code.Up? ==> o.state.app.selectedList == s.app.selectedList &&
                       o.state.app.selectedRow == (if row > 0 then row - 1 else row))
      && (code.Left? ==> o.state.app.selectedList == Unpaired && o.state.app.selectedRow == row)
      && (code.Right? ==> o.state.app.selectedList == Paired && o.state.app.selectedRow == row)
      && ((code.Down? || code.Up?) && RowInRange(s.app) ==> RowInRange(o.state.app))
  {
  }

  /**
    Switching lists keeps the row, so it can point past the end of the list switched to: here row 1
    of a two-device `unpaired` list becomes row 1 of a one-device `paired` list.
  */
  lemma SwitchCanLeaveRowOutOfRange()
    ensures var d := Device("a", false, None);
      var s := State(App(Unpaired, 1, Insert(Insert(Empty(), 1, d), 2, d), Insert(Empty(), 3, d), None), {}, true);
      && s.Valid() && RowInRange(s.app)
      && !RowInRange(Step(s, KeyPress(Right, None)).state.app)
  {
    var d := Device("a", false, None);
    var e: IndexMap<Address, Device> := Empty();
    var m := Insert(Insert(e, 1, d), 2, d);
    assert m.keys == [1, 2];
    assert Insert(e, 3, d).keys == [3];
  }

  /** `q` ends the loop normally and leaves the state as it is. */
  lemma QuitStops(s: State, lookupError: Option<string>)
    requires s.Valid() && s.app.error.None?
    ensures Step(s, KeyPress(Char('q'), lookupError)) == Outcome(s, [], Quit)
  {
  }

  /**
    `s` does nothing without an adapter; with one it aborts and restarts the scanner and leaves
    both lists empty, while the selection, the error slot and the spinner table stay as they were.
  */
  lemma RescanEmptiesLists(s: State, lookupError: Option<string>)
    requires s.Valid() && s.app.error.None?
    ensures var o := Step(s, KeyPress(Char('s'), lookupError));
      && o.status == Running && o.state.spinners == s.spinners && o.state.adapter == s.adapter
      && (!s.adapter ==> o.state == s && o.effects == [])
      && (s.adapter ==>
            && o.effects == [ScanAborted, ScanStarted]
            && o.state.app.unpaired.Len() == 0 && o.state.app.paired.Len() == 0
            && (forall a :: o.state.app.unpaired.Get(a) == None && o.state.app.paired.Get(a) == None)
            && o.state.app.selectedList == s.app.selectedList && o.state.app.selectedRow == s.app.selectedRow
            && o.state.app.error == s.app.error)
  {
  }

  // ---------------------------------------------------------------- Enter

  /**
    Enter with no error shown: without an adapter nothing happens; a selected row past the end of
    the active list ends the loop with the "impossible" error; a selected device already loading is
    left alone.
  */
  lemma EnterGuards(s: State, lookupError: Option<string>)
    requires s.Valid() && s.app.error.None?
    ensures var o := Step(s, KeyPress(Enter, lookupError));
      var m := Entries(s.app, s.app.selectedList);
      var row := s.app.selectedRow;
      && (!s.adapter ==> o == Outcome(s, [], Running))
      && (s.adapter && row >= m.Len() ==> o == Outcome(s, [], Fatal(MISSING_ROW)))
      && (s.adapter && row < m.Len() && m.values[m.keys[row]].loading.Some? ==> o == Outcome(s, [], Running))
  {
  }

  /** In particular Enter on an empty active list (say right after `s`) ends the loop with that error. */
  lemma EmptyListEnterIsFatal(s: State, lookupError: Option<string>)
    requires s.Valid() && s.adapter && s.app.error.None? && Entries(s.app, s.app.selectedList).Len() == 0
    ensures Step(s, KeyPress(Enter, lookupError)).status == Fatal(MISSING_ROW)
    ensures var r := Step(s, KeyPress(Char('s'), lookupError)).state;
      Step(r, KeyPress(Enter, lookupError)).status == Fatal(MISSING_ROW)
  {
    EnterGuards(s, lookupError);
    RescanEmptiesLists(s, lookupError);
    EnterGuards(Step(s, KeyPress(Char('s'), lookupError)).state, lookupError);
  }

  /**
    Enter on an idle device: its entry, and only it, starts loading at counter 0. If its handle
    cannot be resolved the error slot names the failure and the operation, and nothing is spawned;
    otherwise a pairing (unpaired list) or connecting (paired list) worker is requested with the
    matching process text, then a spinner is started and entered in the table, a spinner already
    there for the address being dropped unaborted.
  */
  lemma EnterStartsOperation(s: State, lookupError: Option<string>)
    requires s.Valid() && s.adapter && s.app.error.None?
    requires s.app.selectedRow < Entries(s.app, s.app.selectedList).Len()
    requires var m := Entries(s.app, s.app.selectedList); m.values[m.keys[s.app.selectedRow]].loading.None?
    ensures var o := Step(s, KeyPress(Enter, lookupError));
      var list := s.app.selectedList;
      var m := Entries(s.app, list);
      var addr := m.keys[s.app.selectedRow];
      var d := m.values[addr];
      && o.status == Running && o.state.adapter
      && o.state.app.selectedList == list && o.state.app.selectedRow == s.app.selectedRow
      && Entries(o.state.app, Other(list)) == Entries(s.app, Other(list))
      && Entries(o.state.app, list).keys == m.keys
      && Entries(o.state.app, list).Get(addr) == Some(d.(loading := Some(0)))
      && (forall a :: a != addr ==> Entries(o.state.app, list).Get(a) == m.Get(a))
      && (lookupError.Some? ==>
            var process := if list == Paired then "connecting to " + d.alias else "pairing with " + d.alias;
            && o.state.app.error == Some(Error(lookupError.value, process))
            && o.effects == [] && o.state.spinners == s.spinners)
      && (lookupError.None? ==>
            && o.state.app.error == None
            && o.state.spinners == s.spinners + {addr}
            && |o.effects| == (if addr in s.spinners then 3 else 2)
            && o.effects[0] == (if list == Unpaired then PairRequested(addr, "pairing with " + d.alias)
                                else ConnectRequested(addr, "connecting to " + d.alias))
            && o.effects[1] == SpinnerStarted(addr)
            && (addr in s.spinners ==> o.effects[2] == SpinnerOrphaned(addr)))
  {
  }

  /**
    When the handle lookup fails, the device is left loading without starting a spinner or a
    worker: after Esc closes the error, Enter on it again does nothing. Only a fresh intake, or the
    completion of a worker from an earlier request that is still running, clears it.
  */
  lemma FailedLookupStrandsDevice(s: State, message: string, lookupError: Option<string>)
    requires s.Valid() && s.adapter && s.app.error.None?
    requires s.app.selectedRow < Entries(s.app, s.app.selectedList).Len()
    requires var m := Entries(s.app, s.app.selectedList); m.values[m.keys[s.app.selectedRow]].loading.None?
    ensures var s1 := Step(s, KeyPress(Enter, Some(message))).state;
      var s2 := Step(s1, KeyPress(Esc, None)).state;
      && s1.spinners == s.spinners && s1.app.error.Some?
      && s2.app.error.None? && s2.spinners == s.spinners
      && Step(s2, KeyPress(Enter, lookupError)) == Outcome(s2, [], Running)
  {
    EnterStartsOperation(s, Some(message));
    var s1 := Step(s, KeyPress(Enter, Some(message))).state;
    ErrorShownGatesKeys(s1, Esc, None);
    var s2 := Step(s1, KeyPress(Esc, None)).state;
    EnterGuards(s2, lookupError);
  }

  // ---------------------------------------------------------------- the spinner table

  /**
    The spinner table changes only as the effects say: an address enters it exactly when a spinner
    is started for it and leaves it exactly when its spinner is aborted, and only spinners that are
    in the table are aborted or dropped.
  */
  lemma SpinnerTableFollowsEffects(s: State, e: Event)
    requires s.Valid()
    ensures SpinnersFollow(s, Step(s, e))
  {
    match e
    case Completion(addr) => CompletionEndsLoading(s, addr);
    case KeyPress(code, lookupError) => KeySpinners(s, code, lookupError);
    case _ =>
  }

  /** The two facts of `SpinnerTableFollowsEffects`, for the outcome `o` of a step from `s`. */
  ghost predicate SpinnersFollow(s: State, o: Outcome) {
    && (forall a :: a in o.state.spinners <==>
                    (a in s.spinners && SpinnerAborted(a) !in o.effects) || SpinnerStarted(a) in o.effects)
    && (forall a :: SpinnerAborted(a) in o.effects || SpinnerOrphaned(a) in o.effects ==> a in s.spinners)
  }

  /** `SpinnerTableFollowsEffects` for key presses. */
  lemma KeySpinners(s: State, code: KeyCode, lookupError: Option<string>)
    requires s.Valid()
    ensures SpinnersFollow(s, OnKey(s, code, lookupError))
  {
    if s.app.error.None? && code == Enter {
      EnterSpinners(s, lookupError);
    } else {
      var o := OnKey(s, code, lookupError);
      assert o.state.spinners == s.spinners && (o.effects == [] || o.effects == [ScanAborted, ScanStarted]);
    }
  }

  /** `SpinnerTableFollowsEffects` for Enter. */
  lemma EnterSpinners(s: State, lookupError: Option<string>)
    requires s.Valid()
    ensures SpinnersFollow(s, OnEnter(s, lookupError))
  {
    var o := OnEnter(s, lookupError);
    if s.adapter && s.app.selectedRow < Entries(s.app, s.app.selectedList).Len() {
      var m := Entries(s.app, s.app.selectedList);
      var addr := m.keys[s.app.selectedRow];
      if m.values[addr].loading.None? && lookupError.None? {
        assert o.state.spinners == s.spinners + {addr};
        assert o.effects[1..] == [SpinnerStarted(addr)] + (if addr in s.spinners then [SpinnerOrphaned(addr)] else []);
        return;
      }
    }
    assert o.state.spinners == s.spinners && o.effects == [];
  }

  // ---------------------------------------------------------------- one list per address

  /**
    A step keeps an address out of one of the two lists exactly when it is not an intake filing the
    address into the list opposite to the one holding it.
  */
  lemma StepKeepsExclusive(s: State, e: Event, addr: Address)
    requires s.Valid() && Exclusive(s.app, addr)
    ensures Exclusive(Step(s, e).state.app, addr) <==> !CrossIntake(s, e, addr)
  {
    if e.SpinnerTick? || e.Completion? {
      ExclusiveOnLoadingChange(s, e, addr);
    } else if e.Addition? {
      ExclusiveOnAddition(s, e, addr);
    } else if e.PropertyChange? {
      ExclusiveOnPropertyChange(s, e, addr);
    } else if e.KeyPress? {
      ExclusiveOnKey(s, e, addr);
    }
  }

  /** `StepKeepsExclusive` for ticks and completions, which only rewrite an existing entry. */
  lemma ExclusiveOnLoadingChange(s: State, e: Event, addr: Address)
    requires s.Valid() && Exclusive(s.app, addr) && (e.SpinnerTick? || e.Completion?)
    ensures Exclusive(Step(s, e).state.app, addr)
  {
  }

  /** `StepKeepsExclusive` for intakes. */
  lemma ExclusiveOnAddition(s: State, e: Event, addr: Address)
    requires s.Valid() && Exclusive(s.app, addr) && e.Addition?
    ensures Exclusive(Step(s, e).state.app, addr) <==> !CrossIntake(s, e, addr)
  {
  }

  /** `StepKeepsExclusive` for property changes. */
  lemma ExclusiveOnPropertyChange(s: State, e: Event, addr: Address)
    requires s.Valid() && Exclusive(s.app, addr) && e.PropertyChange?
    ensures Exclusive(Step(s, e).state.app, addr)
  {
    if e.property.PairedChanged? {
      PairedChangeMovesDevice(s, e.addr, e.property.paired);
      assert Step(s, e).state == OnPairedChange(s, e.addr, e.property.paired);
    } else if e.property.AliasChanged? || e.property.ConnectedChanged? {
      AliasAndConnectedEditPairedOnly(s, e.addr, e.property);
    }
  }

  /** `StepKeepsExclusive` for key presses: Enter keeps every key, `s` empties both lists. */
  lemma ExclusiveOnKey(s: State, e: Event, addr: Address)
    requires s.Valid() && Exclusive(s.app, addr) && e.KeyPress?
    ensures Exclusive(Step(s, e).state.app, addr)
  {
    if s.app.error.None? && e.code == Enter {
      EnterKeepsKeys(s, e.lookupError);
    } else {
      var o := OnKey(s, e.code, e.lookupError);
      assert o.state.app.paired == s.app.paired || o.state.app.paired.values == map[];
      assert o.state.app.unpaired == s.app.unpaired || o.state.app.unpaired.values == map[];
    }
  }

  /** Enter never adds or removes a key: it edits at most the selected entry. */
  lemma EnterKeepsKeys(s: State, lookupError: Option<string>)
    requires s.Valid()
    ensures var r := OnEnter(s, lookupError).state;
      && r.app.paired.keys == s.app.paired.keys && r.app.paired.values.Keys == s.app.paired.values.Keys
      && r.app.unpaired.keys == s.app.unpaired.keys && r.app.unpaired.values.Keys == s.app.unpaired.values.Keys
  {
  }

  /** So the two lists stay disjoint across every step except such a cross intake, which breaks it. */
  lemma StepKeepsDisjoint(s: State, e: Event)
    requires s.Valid() && Disjoint(s.app)
    ensures Disjoint(Step(s, e).state.app) <==> !(e.Addition? && CrossIntake(s, e, e.addr))
  {
    if e.Addition? && CrossIntake(s, e, e.addr) {
      StepKeepsExclusive(s, e, e.addr);
    } else {
      forall addr ensures Exclusive(Step(s, e).state.app, addr) {
        StepKeepsExclusive(s, e, addr);
      }
    }
  }

  /**
    Such an intake happens when a device is rediscovered after its paired flag changed without a
    property event: address 1 found unpaired, then found paired, ends up in both lists.
  */
  lemma IntakeCanBreakDisjointness()
    ensures var s1 := Step(Initial(), AdapterReady).state;
      var s2 := Step(s1, Addition(1, Fetched(false, false, "a"))).state;
      var s3 := Step(s2, Addition(1, Fetched(true, false, "a"))).state;
      && Disjoint(s2.app) && !Disjoint(s3.app)
  {
    var s1 := Step(Initial(), AdapterReady).state;
    var s2 := Step(s1, Addition(1, Fetched(false, false, "a"))).state;
    assert s1.app.paired.values == map[] && s1.app.unpaired.values == map[];
    assert s2.app.paired.values == map[] && s2.app.unpaired.values.Keys == {1};
    assert !Exclusive(Step(s2, Addition(1, Fetched(true, false, "a"))).state.app, 1);
  }

  // ---------------------------------------------------------------- no second request while one is pending

  /**
    A device whose every copy is loading stays so, and gets no pair or connect request, through any
    step other than its completion or a fresh intake of it.
  */
  lemma StepKeepsBusy(s: State, e: Event, addr: Address)
    requires s.Valid() && Busy(s.app, addr) && !Resets(e, addr)
    ensures Busy(Step(s, e).state.app, addr) && NoRequestFor(Step(s, e).effects, addr)
  {
    if e.SpinnerTick? || e.Completion? {
      BusyOnLoadingChange(s, e, addr);
    } else if e.Addition? {
      BusyOnAddition(s, e, addr);
    } else if e.PropertyChange? {
      BusyOnPropertyChange(s, e, addr);
    } else if e.KeyPress? {
      BusyOnKey(s, e, addr);
    }
  }

  /** `StepKeepsBusy` for ticks and for completions of other devices. */
  lemma BusyOnLoadingChange(s: State, e: Event, addr: Address)
    requires s.Valid() && Busy(s.app, addr) && (e.SpinnerTick? || e.Completion?) && !Resets(e, addr)
    ensures Busy(Step(s, e).state.app, addr) && NoRequestFor(Step(s, e).effects, addr)
  {
  }

  /** `StepKeepsBusy` for intakes other than a fresh one of the device. */
  lemma BusyOnAddition(s: State, e: Event, addr: Address)
    requires s.Valid() && Busy(s.app, addr) && e.Addition? && !Resets(e, addr)
    ensures Busy(Step(s, e).state.app, addr) && NoRequestFor(Step(s, e).effects, addr)
  {
  }

  /** `StepKeepsBusy` for property changes: moves and edits keep the loading field. */
  lemma BusyOnPropertyChange(s: State, e: Event, addr: Address)
    requires s.Valid() && Busy(s.app, addr) && e.PropertyChange?
    ensures Busy(Step(s, e).state.app, addr) && NoRequestFor(Step(s, e).effects, addr)
  {
    if e.property.PairedChanged? {
      BusyAfterMove(s, e.addr, e.property.paired, addr);
      assert Step(s, e).state == OnPairedChange(s, e.addr, e.property.paired);
    } else if e.property.AliasChanged? || e.property.ConnectedChanged? {
      AliasAndConnectedEditPairedOnly(s, e.addr, e.property);
    }
  }

  /** A move between the lists carries the loading field along, so a busy device stays busy. */
  lemma BusyAfterMove(s: State, moved: Address, paired: bool, addr: Address)
    requires s.Valid() && Busy(s.app, addr)
    ensures Busy(OnPairedChange(s, moved, paired).app, addr)
  {
    PairedChangeMovesDevice(s, moved, paired);
  }

  /** `StepKeepsBusy` for key presses. */
  lemma BusyOnKey(s: State, e: Event, addr: Address)
    requires s.Valid() && Busy(s.app, addr) && e.KeyPress?
    ensures Busy(Step(s, e).state.app, addr) && NoRequestFor(Step(s, e).effects, addr)
  {
    if s.app.error.None? && e.code == Enter {
      EnterKeepsBusy(s, e.lookupError, addr);
    } else {
      var o := OnKey(s, e.code, e.lookupError);
      assert o.state.app.paired == s.app.paired || o.state.app.paired.values == map[];
      assert o.state.app.unpaired == s.app.unpaired || o.state.app.unpaired.values == map[];
      assert o.effects == [] || o.effects == [ScanAborted, ScanStarted];
    }
  }

  /** Enter leaves a busy device busy and requests nothing for it. */
  lemma EnterKeepsBusy(s: State, lookupError: Option<string>, addr: Address)
    requires s.Valid() && Busy(s.app, addr)
    ensures var o := OnEnter(s, lookupError);
      Busy(o.state.app, addr) && NoRequestFor(o.effects, addr)
  {
    var o := OnEnter(s, lookupError);
    if s.adapter && s.app.selectedRow < Entries(s.app, s.app.selectedList).Len() {
      var m := Entries(s.app, s.app.selectedList);
      var selected := m.keys[s.app.selectedRow];
      if m.values[selected].loading.None? {
        assert selected != addr;
        assert Entries(o.state.app, s.app.selectedList).Get(addr) == m.Get(addr);
        assert Entries(o.state.app, Other(s.app.selectedList)) == Entries(s.app, Other(s.app.selectedList));
        return;
      }
    }
    assert o.state == s && o.effects == [];
  }

  /**
    Only Enter requests work for a device, one request per step, and for a device in only one list
    it leaves that device busy.
  */
  lemma RequestLeavesBusy(s: State, e: Event, addr: Address)
    requires s.Valid() && Exclusive(s.app, addr) && !NoRequestFor(Step(s, e).effects, addr)
    ensures e.KeyPress? && e.code == Enter
    ensures var o := Step(s, e);
      IsRequestFor(o.effects[0], addr) && NoRequestFor(o.effects[1..], addr) && Busy(o.state.app, addr)
  {
  }

  /** Over a whole run, a busy device is never requested again until it completes or is taken in afresh. */
  lemma {:induction false} NoRedispatchWhileBusy(s: State, events: seq<Event>, addr: Address)
    requires s.Valid() && Busy(s.app, addr)
    requires forall i :: 0 <= i < |events| ==> !Resets(events[i], addr)
    ensures Busy(RunEvents(s, events).state.app, addr)
    ensures NoRequestFor(RunEvents(s, events).effects, addr)
    decreases |events|
  {
    if events != [] {
      var init := events[..|events| - 1];
      assert forall i :: 0 <= i < |init| ==> init[i] == events[i];
      NoRedispatchWhileBusy(s, init, addr);
      var t := RunEvents(s, init);
      if t.status == Running {
        var o := Step(t.state, events[|events| - 1]);
        StepKeepsBusy(t.state, events[|events| - 1], addr);
        assert RunEvents(s, events).effects == t.effects + o.effects;
      }
    }
  }

  /**
    The no-double-dispatch rule: once a request has gone out for a device held in one list, no
    further request for it goes out until its completion or a fresh intake of it.
  */
  lemma AtMostOneRequest(s: State, e: Event, rest: seq<Event>, addr: Address)
    requires s.Valid() && Exclusive(s.app, addr) && !NoRequestFor(Step(s, e).effects, addr)
    requires forall i :: 0 <= i < |rest| ==> !Resets(rest[i], addr)
    ensures NoRequestFor(RunEvents(Step(s, e).state, rest).effects, addr)
  {
    RequestLeavesBusy(s, e, addr);
    NoRedispatchWhileBusy(Step(s, e).state, rest, addr);
  }

  // ---------------------------------------------------------------- a session

  /** The device used in the session below. */
  const A1: Address := 0xA1

  /** The state after the adapter arrives and A1 is found unpaired, disconnected, as "Speaker". */
  function Discovered(): State
  {
    Step(Step(Initial(), AdapterReady).state, Addition(A1, Fetched(false, false, "Speaker"))).state
  }

  /**
    Discovering A1 files it under `unpaired` only; its paired flag turning true moves it to
    `paired`, alias and connected flag kept.
  */
  lemma DiscoverThenPair()
    ensures Discovered().app.unpaired.keys == [A1] && Discovered().app.paired.keys == []
    ensures Discovered().app.unpaired.values[A1] == Device("Speaker", false, None)
    ensures var s := Step(Discovered(), PropertyChange(A1, PairedChanged(true))).state;
      && s.app.unpaired.keys == [] && s.app.paired.keys == [A1]
      && s.app.paired.values[A1] == Device("Speaker", false, None)
  {
    var s0 := Step(Initial(), AdapterReady).state;
    assert s0.adapter && s0.app.unpaired.keys == [] && s0.app.paired.keys == [];
    var s1 := Discovered();
    assert s1.app.unpaired.keys == [A1] && s1.app.paired.keys == [];
    assert s1.app.unpaired.values == map[A1 := Device("Speaker", false, None)];
    PairedChangeMovesDevice(s1, A1, true);
    assert Without([A1], A1) == [];
  }

  /** The state after A1 has moved to `paired` and the paired list has been selected. */
  function PairedSelected(): State
  {
    Step(Step(Discovered(), PropertyChange(A1, PairedChanged(true))).state, KeyPress(Right, None)).state
  }

  /** The outcome of Enter on A1 in the paired list. */
  function Connecting(): Outcome
  {
    Step(PairedSelected(), KeyPress(Enter, None))
  }

  /** Enter on A1 in the paired list requests a connection "connecting to Speaker" and starts its spinner at 0. */
  lemma EnterConnectsSpeaker()
    ensures Connecting().effects == [ConnectRequested(A1, "connecting to Speaker"), SpinnerStarted(A1)]
    ensures Connecting().state.app.paired.Get(A1) == Some(Device("Speaker", false, Some(0)))
    ensures Connecting().state.app.paired.keys == [A1] && Connecting().state.spinners == {A1}
  {
    var p := PairedSelected();
    SpeakerSelected();
    EnterStartsOperation(p, None);
    assert "connecting to " + "Speaker" == "connecting to Speaker";
    var o := Connecting();
    assert |o.effects| == 2;
  }

  /** Where the session stands before Enter: A1 alone in `paired`, idle, selected; adapter held, no error. */
  lemma SpeakerSelected()
    ensures var p := PairedSelected();
      && p.Valid() && p.app.selectedList == Paired && p.app.selectedRow == 0 && p.adapter && p.app.error == None
      && p.app.paired.keys == [A1] && p.app.paired.values[A1] == Device("Speaker", false, None)
      && p.spinners == {}
  {
    DiscoverThenPair();
  }

  /** The state after three spinner ticks for A1 have followed Enter. */
  function Ticked(): State
  {
    Step(Step(Step(Connecting().state, SpinnerTick(A1)).state, SpinnerTick(A1)).state, SpinnerTick(A1)).state
  }

  /** Three ticks bring A1's counter to 3 and leave its spinner in the table. */
  lemma ThreeTicks()
    ensures Ticked().app.paired.Get(A1) == Some(Device("Speaker", false, Some(3)))
    ensures Ticked().spinners == {A1}
  {
    EnterConnectsSpeaker();
    var c := Connecting().state;
    var t1 := Step(c, SpinnerTick(A1)).state;
    TickAdvancesCounter(c, A1);
    var t2 := Step(t1, SpinnerTick(A1)).state;
    TickAdvancesCounter(t1, A1);
    TickAdvancesCounter(t2, A1);
  }

  /**
    From there (A1 in `paired` at counter 3 with its spinner in the table, as `ThreeTicks` leaves
    it), the worker's completion, then its failure report, end A1's loading state, empty the
    spinner table and show the error.
  */
  lemma CompletionThenFailure(t: State)
    requires t.Valid() && t.app.paired.Get(A1) == Some(Device("Speaker", false, Some(3))) && t.spinners == {A1}
    ensures var done := Step(t, Completion(A1)).state;
      && done.app.paired.Get(A1) == Some(Device("Speaker", false, None)) && done.spinners == {}
      && Step(done, ErrorReport(Error("connection refused", "connecting to Speaker"))).state.app.error
         == Some(Error("connection refused", "connecting to Speaker"))
  {
    CompletionEndsLoading(t, A1);
  }
}
