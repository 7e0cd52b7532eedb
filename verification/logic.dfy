/**
  The event loop of `run`. Each arm of its `select!` is one transition of the loop's state (the UI
  record, the spinner table and whether an adapter is present), with the outside result that arm
  waited for (a fetched value or failure, a key, a property change) carried by the event.

  The transitions are stated first as functions (`Step`, and `RunEvents` for a whole sequence of
  events); the class `EventLoop` then performs them in place, one method per arm, and each method is
  proved to agree with its function.
*/
module Logic {
  import opened Options
  import opened Types
  import opened IndexMaps
  import opened Ui

  /** A change reported on one device's property stream. */
  datatype Property =
    | AliasChanged(alias: string)
    | ConnectedChanged(connected: bool)
    | PairedChanged(paired: bool)
    | OtherProperty

  /** The key codes the loop tells apart; modifiers are not looked at. */
  datatype KeyCode = Char(c: char) | Down | Up | Left | Right | Enter | Esc | OtherKey

  /**
    What fetching a discovered device's state gave. The fetches run in the order device handle,
    paired flag, connected flag, property stream, alias, and stop at the first failure.
  */
  datatype Intake =
    | DeviceLookupFailed
    | PairedFetchFailed
    | ConnectedFetchFailed
    | EventsFetchFailed
    | AliasFetchFailed
    | Fetched(paired: bool, connected: bool, alias: string)

  /**
    One resolution of the loop's `select!`. `KeyPress.lookupError` is what resolving the selected
    device's handle gives when Enter gets that far: `Some(message)` when it fails.
  */
  datatype Event =
    | SpinnerTick(addr: Address)
    | Completion(addr: Address)
    | ErrorReport(error: Error)
    | Addition(addr: Address, intake: Intake)
    | PropertyChange(addr: Address, property: Property)
    | AdapterReady
    | AdapterFailed(message: string)
    | KeyPress(code: KeyCode, lookupError: Option<string>)
    | OtherTerminalEvent
    | TerminalFailed(message: string)

  /**
    The work a transition hands to the outside world: starting or aborting the scanner task, adding
    a device's property stream to the fan-in, aborting a spinner task, spawning a pair or connect
    worker (with the process text its failure will carry), spawning a spinner task, and dropping the
    handle of a spinner task that is already in the table without aborting it.
  */
  datatype Effect =
    | ScanStarted
    | ScanAborted
    | Subscribed(addr: Address)
    | SpinnerAborted(addr: Address)
    | PairRequested(addr: Address, process: string)
    | ConnectRequested(addr: Address, process: string)
    | SpinnerStarted(addr: Address)
    | SpinnerOrphaned(addr: Address)

  /** Whether the loop goes on, ends normally (`q`), or ends with an error. */
  datatype Status = Running | Quit | Fatal(message: string)

  /** The loop's state: the UI record, the addresses in the spinner table, and whether an adapter is held. */
  datatype State = State(app: App, spinners: set<Address>, adapter: bool) {
    ghost predicate Valid() {
      app.Valid()
    }
  }

  datatype Outcome = Outcome(state: State, effects: seq<Effect>, status: Status)

  const MISSING_ROW: string := "Attempted to use item that doesn't exist in list. This should be impossible!"

  /** The state before the first event: an empty UI, no spinners, no adapter yet. */
  function Initial(): (s: State)
    ensures s.Valid() && s.app == DefaultApp() && s.spinners == {} && !s.adapter
  {
    State(DefaultApp(), {}, false)
  }

  /** `app` with the device list behind `list` replaced by `m`. */
  function WithEntries(app: App, list: List, m: IndexMap<Address, Device>): App {
    match list
    case Unpaired => app.(unpaired := m)
    case Paired => app.(paired := m)
  }

  /** The list whose copy of `addr` the loop's lookups reach: `paired` is searched before `unpaired`. */
  function Locate(app: App, addr: Address): (r: Option<List>)
    ensures r.Some? ==> addr in Entries(app, r.value).values
    ensures r.None? <==> addr !in app.paired.values && addr !in app.unpaired.values
    ensures addr in app.paired.values ==> r == Some(Paired)
    ensures addr !in app.paired.values && addr in app.unpaired.values ==> r == Some(Unpaired)
  {
    if addr in app.paired.values then Some(Paired)
    else if addr in app.unpaired.values then Some(Unpaired)
    else None
  }

  // ---------------------------------------------------------------- the arms

  /** A spinner tick advances the counter of the device it reaches, if that device is loading. */
  function OnSpinnerTick(s: State, addr: Address): (r: State)
    requires s.Valid()
    ensures r.Valid()
  {
    match Locate(s.app, addr)
    case None => s
    case Some(list) =>
      var d := Entries(s.app, list).values[addr];
      match d.loading
      case None => s
      case Some(index) =>
        s.(app := WithEntries(s.app, list, Insert(Entries(s.app, list), addr, d.(loading := Some(WrappingAdd(index, 1))))))
  }

  /** A completion ends the loading state of the device it reaches and aborts its spinner, if any. */
  function OnCompletion(s: State, addr: Address): (o: Outcome)
    requires s.Valid()
    ensures o.state.Valid() && o.status == Running
  {
    match Locate(s.app, addr)
    case None => Outcome(s, [], Running)
    case Some(list) =>
      var m := Entries(s.app, list);
      var app := WithEntries(s.app, list, Insert(m, addr, m.values[addr].(loading := None)));
      if addr in s.spinners then Outcome(s.(app := app, spinners := s.spinners - {addr}), [SpinnerAborted(addr)], Running)
      else Outcome(s.(app := app), [], Running)
  }

  /** A reported error takes the error slot, replacing any error shown. */
  function OnErrorReport(s: State, error: Error): (r: State)
    requires s.Valid()
    ensures r.Valid()
  {
    s.(app := s.app.(error := Some(error)))
  }

  /**
    A discovered address: without an adapter, or when a fetch fails, nothing is recorded; the
    property stream is added once it has been obtained (so also when only the alias fetch fails);
    on full success the device, not loading, goes into `paired` or `unpaired` by its paired flag.
  */
  function OnAddition(s: State, addr: Address, intake: Intake): (o: Outcome)
    requires s.Valid()
    ensures o.state.Valid() && o.status == Running
  {
    if !s.adapter then Outcome(s, [], Running)
    else
      match intake
      case Fetched(paired, connected, alias) =>
        var d := Device(alias, connected, None);
        var app := if paired then s.app.(paired := Insert(s.app.paired, addr, d))
                   else s.app.(unpaired := Insert(s.app.unpaired, addr, d));
        Outcome(s.(app := app), [Subscribed(addr)], Running)
      case AliasFetchFailed => Outcome(s, [Subscribed(addr)], Running)
      case _ => Outcome(s, [], Running)
  }

  /**
    A property change. Alias and connected changes edit an entry of `paired` only; a paired change
    moves the device between the lists, keeping its fields, when it is in the list it leaves.
  */
  function OnPropertyChange(s: State, addr: Address, property: Property): (r: State)
    requires s.Valid()
    ensures r.Valid()
  {
    match property
    case AliasChanged(alias) =>
      s.(app := s.app.(paired := AndModify(s.app.paired, addr, (d: Device) => d.(alias := alias))))
    case ConnectedChanged(connected) =>
      s.(app := s.app.(paired := AndModify(s.app.paired, addr, (d: Device) => d.(connected := connected))))
    case PairedChanged(paired) => OnPairedChange(s, addr, paired)
    case OtherProperty => s
  }

  /** The paired-change part of `OnPropertyChange`: `shift_remove` from one list, `insert` into the other. */
  function OnPairedChange(s: State, addr: Address, paired: bool): (r: State)
    requires s.Valid()
    ensures r.Valid()
  {
    var from := if paired then Unpaired else Paired;
    var to := if paired then Paired else Unpaired;
    var (rest, removed) := ShiftRemove(Entries(s.app, from), addr);
    if removed.None? then s
    else s.(app := WithEntries(WithEntries(s.app, from, rest), to, Insert(Entries(s.app, to), addr, removed.value)))
  }

  /** The adapter arrives: it is kept and a scan is started; a failure to get one ends the loop. */
  function OnAdapter(s: State, failure: Option<string>): (o: Outcome)
    requires s.Valid()
    ensures o.state.Valid()
  {
    match failure
    case None => Outcome(s.(adapter := true), [ScanStarted], Running)
    case Some(message) => Outcome(s, [], Fatal(message))
  }

  /** `s`: without an adapter nothing happens; otherwise the scanner restarts and both lists are emptied. */
  function OnRescan(s: State): (o: Outcome)
    requires s.Valid()
    ensures o.state.Valid() && o.status == Running
  {
    if !s.adapter then Outcome(s, [], Running)
    else Outcome(s.(app := s.app.(unpaired := Empty(), paired := Empty())), [ScanAborted, ScanStarted], Running)
  }

  /** The text describing the operation Enter starts on `list`. */
  function ProcessText(list: List, alias: string): string {
    match list
    case Paired => "connecting to " + alias
    case Unpaired => "pairing with " + alias
  }

  /** The worker Enter spawns: pairing for an unpaired device, connecting for a paired one. */
  function Request(list: List, addr: Address, process: string): Effect {
    match list
    case Unpaired => PairRequested(addr, process)
    case Paired => ConnectRequested(addr, process)
  }

  /**
    Enter: needs an adapter; a selected row outside the active list ends the loop; a device already
    loading is left alone; otherwise it starts loading, and then either its handle cannot be
    resolved (the error slot is set and nothing is spawned) or the worker and a spinner are spawned.
  */
  function OnEnter(s: State, lookupError: Option<string>): (o: Outcome)
    requires s.Valid()
    ensures o.state.Valid()
  {
    if !s.adapter then Outcome(s, [], Running)
    else
      var list := s.app.selectedList;
      var m := Entries(s.app, list);
      match GetIndex(m, s.app.selectedRow)
      case None => Outcome(s, [], Fatal(MISSING_ROW))
      case Some((addr, d)) =>
        if d.loading.Some? then Outcome(s, [], Running)
        else
          var app := WithEntries(s.app, list, Insert(m, addr, d.(loading := Some(0))));
          var process := ProcessText(list, d.alias);
          match lookupError
          case Some(message) => Outcome(s.(app := app.(error := Some(Error(message, process)))), [], Running)
          case None =>
            var orphaned := if addr in s.spinners then [SpinnerOrphaned(addr)] else [];
            Outcome(s.(app := app, spinners := s.spinners + {addr}),
                    [Request(list, addr, process), SpinnerStarted(addr)] + orphaned, Running)
  }

  /** The last row of a list of `len` rows, or 0 for an empty list (`len.checked_sub(1).unwrap_or_default()`). */
  function LastRow(len: nat): nat {
    if len == 0 then 0 else len - 1
  }

  /** A key press. While an error is shown only Esc does anything, and it closes the error. */
  function OnKey(s: State, code: KeyCode, lookupError: Option<string>): (o: Outcome)
    requires s.Valid()
    ensures o.state.Valid()
  {
    var app := s.app;
    if app.error.Some? then
      if code == Esc then Outcome(s.(app := app.(error := None)), [], Running) else Outcome(s, [], Running)
    else
      match code
      case Char(c) =>
        if c == 'q' then Outcome(s, [], Quit)
        else if c == 's' then OnRescan(s)
        else Outcome(s, [], Running)
      case Down =>
        if app.selectedRow < LastRow(Entries(app, app.selectedList).Len())
        then Outcome(s.(app := app.(selectedRow := app.selectedRow + 1)), [], Running)
        else Outcome(s, [], Running)
      case Up =>
        if app.selectedRow > 0 then Outcome(s.(app := app.(selectedRow := app.selectedRow - 1)), [], Running)
        else Outcome(s, [], Running)
      case Left =>
        Outcome(if app.selectedList == Paired then s.(app := app.(selectedList := Unpaired)) else s, [], Running)
      case Right =>
        Outcome(if app.selectedList == Unpaired then s.(app := app.(selectedList := Paired)) else s, [], Running)
      case Enter => OnEnter(s, lookupError)
      case Esc => Outcome(s.(app := app.(error := None)), [], Running)
      case OtherKey => Outcome(s, [], Running)
  }

  /** One turn of the loop: the transition for whichever arm of the `select!` fired. */
  function Step(s: State, e: Event): (o: Outcome)
    requires s.Valid()
    ensures o.state.Valid()
    ensures o.status != Running ==> o.state == s && o.effects == []
  {
    match e
    case SpinnerTick(addr) => Outcome(OnSpinnerTick(s, addr), [], Running)
    case Completion(addr) => OnCompletion(s, addr)
    case ErrorReport(error) => Outcome(OnErrorReport(s, error), [], Running)
    case Addition(addr, intake) => OnAddition(s, addr, intake)
    case PropertyChange(addr, property) => Outcome(OnPropertyChange(s, addr, property), [], Running)
    case AdapterReady => OnAdapter(s, None)
    case AdapterFailed(message) => OnAdapter(s, Some(message))
    case KeyPress(code, lookupError) => OnKey(s, code, lookupError)
    case OtherTerminalEvent => Outcome(s, [], Running)
    case TerminalFailed(message) => Outcome(s, [], Fatal(message))
  }

  /** The state, the effects in order, and the status after the loop has taken `events` in turn. */
  datatype Trace = Trace(state: State, effects: seq<Effect>, status: Status)

  /** The loop over a sequence of events; it stops at the first event that quits or fails. */
  function RunEvents(s: State, events: seq<Event>): (t: Trace)
    requires s.Valid()
    ensures t.state.Valid()
    decreases |events|
  {
    if events == [] then Trace(s, [], Running)
    else
      var t := RunEvents(s, events[..|events| - 1]);
      if t.status != Running then t
      else
        var o := Step(t.state, events[|events| - 1]);
        Trace(o.state, t.effects + o.effects, o.status)
  }

  /** Once the loop has stopped, later events change nothing. */
  lemma {:induction false} RunStopsEarly(s: State, events: seq<Event>, i: nat)
    requires s.Valid() && i <= |events|
    requires RunEvents(s, events[..i]).status != Running
    ensures RunEvents(s, events) == RunEvents(s, events[..i])
    decreases |events| - i
  {
    if i < |events| {
      assert events[..i + 1][..i] == events[..i];
      RunStopsEarly(s, events, i + 1);
    } else {
      assert events[..i] == events;
    }
  }

  /** Taking one more event extends the run by one step, while the loop is still running. */
  lemma RunOneMore(s: State, events: seq<Event>, e: Event)
    requires s.Valid()
    requires RunEvents(s, events).status == Running
    ensures RunEvents(s, events + [e]) ==
            Trace(Step(RunEvents(s, events).state, e).state,
                  RunEvents(s, events).effects + Step(RunEvents(s, events).state, e).effects,
                  Step(RunEvents(s, events).state, e).status)
  {
    assert (events + [e])[..|events|] == events;
  }

  /** Extending a prefix of `xs` by the next element gives the next prefix. */
  lemma PrefixGrows<T>(xs: seq<T>, i: nat)
    requires i < |xs|
    ensures xs[..i] + [xs[i]] == xs[..i + 1]
  {
  }

  /** The same, for the first `i + 1` of a sequence of events. */
  lemma RunPrefixOneMore(s: State, events: seq<Event>, i: nat)
    requires s.Valid() && i < |events|
    requires RunEvents(s, events[..i]).status == Running
    ensures RunEvents(s, events[..i + 1]) ==
            Trace(Step(RunEvents(s, events[..i]).state, events[i]).state,
                  RunEvents(s, events[..i]).effects + Step(RunEvents(s, events[..i]).state, events[i]).effects,
                  Step(RunEvents(s, events[..i]).state, events[i]).status)
  {
    PrefixGrows(events, i);
    RunOneMore(s, events[..i], events[i]);
  }

  /** The screen drawn before the loop takes event `j`. */
  function ScreenBefore(s: State, events: seq<Event>, j: nat): Screen
    requires s.Valid() && j <= |events|
  {
    Render(RunEvents(s, events[..j]).state.app)
  }

  // ---------------------------------------------------------------- the loop, in place

  class EventLoop {
    var app: App
    var spinners: set<Address>
    var adapter: bool

    function Snapshot(): State
      reads this
    {
      State(app, spinners, adapter)
    }

    ghost predicate Valid()
      reads this
    {
      app.Valid()
    }

    constructor ()
      ensures Valid() && Snapshot() == Initial()
    {
      app := DefaultApp();
      spinners := {};
      adapter := false;
    }

    /** Writes `d` over the device `addr` in `list` (what the arms do through `&mut Device`). */
    method Store(list: List, addr: Address, d: Device)
      requires Valid()
      modifies this
      ensures Valid()
      ensures app == WithEntries(old(app), list, Insert(Entries(old(app), list), addr, d))
      ensures spinners == old(spinners) && adapter == old(adapter)
    {
      match list
      case Unpaired => app := app.(unpaired := Insert(app.unpaired, addr, d));
      case Paired => app := app.(paired := Insert(app.paired, addr, d));
    }

    method HandleSpinnerTick(addr: Address)
      requires Valid()
      modifies this
      ensures Valid() && Snapshot() == OnSpinnerTick(old(Snapshot()), addr)
    {
      var found := Locate(app, addr);
      if found.None? {
        return;
      }
      var d := Entries(app, found.value).values[addr];
      if d.loading.None? {
        return;
      }
      Store(found.value, addr, d.(loading := Some(WrappingAdd(d.loading.value, 1))));
    }

    method HandleCompletion(addr: Address) returns (effects: seq<Effect>)
      requires Valid()
      modifies this
      ensures Valid() && Outcome(Snapshot(), effects, Running) == OnCompletion(old(Snapshot()), addr)
    {
      effects := [];
      var found := Locate(app, addr);
      if found.None? {
        return;
      }
      var d := Entries(app, found.value).values[addr];
      Store(found.value, addr, d.(loading := None));
      if addr in spinners {
        spinners := spinners - {addr};
        effects := [SpinnerAborted(addr)];
      }
    }

    /** The error-report arm: the reported error replaces whatever the popup showed. */
    method HandleErrorReport(error: Error)
      requires Valid()
      modifies this
      ensures Valid() && Snapshot() == OnErrorReport(old(Snapshot()), error)
    {
      app := app.(error := Some(error));
    }

    /** The adapter arm: a fetched adapter is kept and the scanner started; a failure is fatal. */
    method HandleAdapter(failure: Option<string>) returns (effects: seq<Effect>, status: Status)
      requires Valid()
      modifies this
      ensures Valid() && Outcome(Snapshot(), effects, status) == OnAdapter(old(Snapshot()), failure)
    {
      effects, status := [], Running;
      match failure
      case None =>
        adapter := true;
        effects := [ScanStarted];
      case Some(message) =>
        status := Fatal(message);
    }

    method HandleAddition(addr: Address, intake: Intake) returns (effects: seq<Effect>)
      requires Valid()
      modifies this
      ensures Valid() && Outcome(Snapshot(), effects, Running) == OnAddition(old(Snapshot()), addr, intake)
    {
      effects := [];
      if !adapter {
        return;
      }
      if intake.DeviceLookupFailed? || intake.PairedFetchFailed? || intake.ConnectedFetchFailed? || intake.EventsFetchFailed? {
        return;
      }
      effects := [Subscribed(addr)];
      if intake.AliasFetchFailed? {
        return;
      }
      var d := Device(intake.alias, intake.connected, None);
      if intake.paired {
        app := app.(paired := Insert(app.paired, addr, d));
      } else {
        app := app.(unpaired := Insert(app.unpaired, addr, d));
      }
    }

    method HandlePropertyChange(addr: Address, property: Property)
      requires Valid()
      modifies this
      ensures Valid() && Snapshot() == OnPropertyChange(old(Snapshot()), addr, property)
    {
      match property
      case AliasChanged(alias) =>
        var entry := app.paired.Get(addr);
        if entry.Some? {
          app := app.(paired := Insert(app.paired, addr, entry.value.(alias := alias)));
        }
      case ConnectedChanged(connected) =>
        var entry := app.paired.Get(addr);
        if entry.Some? {
          app := app.(paired := Insert(app.paired, addr, entry.value.(connected := connected)));
        }
      case PairedChanged(paired) =>
        var from, to := if paired then Unpaired else Paired, if paired then Paired else Unpaired;
        var (rest, removed) := ShiftRemove(Entries(app, from), addr);
        if removed.None? {
          return;
        }
        app := WithEntries(app, from, rest);
        Store(to, addr, removed.value);
      case OtherProperty =>
    }

    method HandleEnter(lookupError: Option<string>) returns (effects: seq<Effect>, status: Status)
      requires Valid()
      modifies this
      ensures Valid() && Outcome(Snapshot(), effects, status) == OnEnter(old(Snapshot()), lookupError)
    {
      effects, status := [], Running;
      if !adapter {
        return;
      }
      var list := app.selectedList;
      var entry := GetIndex(Entries(app, list), app.selectedRow);
      if entry.None? {
        status := Fatal(MISSING_ROW);
        return;
      }
      var (addr, d) := entry.value;
      if d.loading.Some? {
        return;
      }
      Store(list, addr, d.(loading := Some(0)));
      var process := ProcessText(list, d.alias);
      if lookupError.Some? {
        app := app.(error := Some(Error(lookupError.value, process)));
        return;
      }
      effects := [Request(list, addr, process), SpinnerStarted(addr)];
      if addr in spinners {
        effects := effects + [SpinnerOrphaned(addr)];
      }
      spinners := spinners + {addr};
    }

    method HandleKey(code: KeyCode, lookupError: Option<string>) returns (effects: seq<Effect>, status: Status)
      requires Valid()
      modifies this
      ensures Valid() && Outcome(Snapshot(), effects, status) == OnKey(old(Snapshot()), code, lookupError)
    {
      effects, status := [], Running;
      if app.error.Some? {
        if code == Esc {
          app := app.(error := None);
        }
        return;
      }
      match code
      case Char(c) =>
        if c == 'q' {
          status := Quit;
        } else if c == 's' && adapter {
          effects := [ScanAborted, ScanStarted];
          app := app.(unpaired := Empty());
          app := app.(paired := Empty());
        }
      case Down =>
        var len := Entries(app, app.selectedList).Len();
        if app.selectedRow < LastRow(len) {
          app := app.(selectedRow := app.selectedRow + 1);
        }
      case Up =>
        if app.selectedRow > 0 {
          app := app.(selectedRow := app.selectedRow - 1);
        }
      case Left =>
        if app.selectedList == Paired {
          app := app.(selectedList := Unpaired);
        }
      case Right =>
        if app.selectedList == Unpaired {
          app := app.(selectedList := Paired);
        }
      case Enter =>
        effects, status := HandleEnter(lookupError);
      case Esc =>
        app := app.(error := None);
      case OtherKey =>
    }

    /** One turn of the loop: dispatches the event to its arm. */
    method Handle(e: Event) returns (effects: seq<Effect>, status: Status)
      requires Valid()
      modifies this
      ensures Valid() && Outcome(Snapshot(), effects, status) == Step(old(Snapshot()), e)
    {
      effects, status := [], Running;
      match e
      case SpinnerTick(addr) => HandleSpinnerTick(addr);
      case Completion(addr) => effects := HandleCompletion(addr);
      case ErrorReport(error) => HandleErrorReport(error);
      case Addition(addr, intake) => effects := HandleAddition(addr, intake);
      case PropertyChange(addr, property) => HandlePropertyChange(addr, property);
      case AdapterReady => effects, status := HandleAdapter(None);
      case AdapterFailed(message) => effects, status := HandleAdapter(Some(message));
      case KeyPress(code, lookupError) => effects, status := HandleKey(code, lookupError);
      case OtherTerminalEvent =>
      case TerminalFailed(message) => status := Fatal(message);
    }

    /** Draws the current state: the screen shown before the loop waits for event `|drawn|`. */
    method Draw(ghost start: State, events: seq<Event>, drawn: seq<Screen>) returns (frames: seq<Screen>)
      requires Valid() && start.Valid() && |drawn| <= |events|
      requires RunEvents(start, events[..|drawn|]).state == Snapshot()
      requires forall j :: 0 <= j < |drawn| ==> drawn[j] == ScreenBefore(start, events, j)
      ensures |frames| == |drawn| + 1
      ensures forall j :: 0 <= j < |frames| ==> frames[j] == ScreenBefore(start, events, j)
    {
      frames := drawn + [Render(app)];
    }

    /** Handles event `i`, given that the loop has handled the ones before it and still runs. */
    method Turn(ghost start: State, events: seq<Event>, i: nat, ghost done: seq<Effect>)
      returns (effects: seq<Effect>, status: Status)
      requires Valid() && start.Valid() && i < |events|
      requires RunEvents(start, events[..i]) == Trace(Snapshot(), done, Running)
      modifies this
      ensures Valid()
      ensures RunEvents(start, events[..i + 1]) == Trace(Snapshot(), done + effects, status)
    {
      effects, status := Handle(events[i]);
      RunPrefixOneMore(start, events, i);
    }

    /**
      The loop itself: draw, take the next event, handle it, until an event quits or fails. When the
      events run out the loop draws once more and would then wait; `frames` are the screens drawn.
    */
    method Run(events: seq<Event>) returns (frames: seq<Screen>, effects: seq<Effect>, status: Status)
      requires Valid()
      modifies this
      ensures Valid()
      ensures Trace(Snapshot(), effects, status) == RunEvents(old(Snapshot()), events)
      ensures 1 <= |frames| <= |events| + 1
      ensures status == Running ==> |frames| == |events| + 1
      ensures status != Running ==> |frames| <= |events| && RunEvents(old(Snapshot()), events[..|frames|]).status == status
      ensures status != Running ==> RunEvents(old(Snapshot()), events[..|frames| - 1]).status == Running
      ensures forall j :: 0 <= j < |frames| ==> frames[j] == ScreenBefore(old(Snapshot()), events, j)
    {
      ghost var start := Snapshot();
      frames, effects, status := [], [], Running;
      var i := 0;
      while true
        invariant 0 <= i <= |events| && |frames| == i
        invariant Valid() && status == Running
        invariant RunEvents(start, events[..i]) == Trace(Snapshot(), effects, Running)
        invariant forall j :: 0 <= j < i ==> frames[j] == ScreenBefore(start, events, j)
        decreases |events| - i
      {
        frames := Draw(start, events, frames);
        if i == |events| {
          assert events[..i] == events;
          return;
        }
        assert RunEvents(start, events[..i]).status == Running;
        var more, next := Turn(start, events, i, effects);
        effects := effects + more;
        i := i + 1;
        if next != Running {
          status := next;
          RunStopsEarly(start, events, i);
          return;
        }
      }
    }
  }
}
