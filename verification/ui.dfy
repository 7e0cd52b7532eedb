/**
  The UI state record `App` and the pure decisions `App::render` and `App::table` make from it:
  the legend line, each table's title, header, rows and highlighted row, and the error popup.
  Layout, widgets and styling are not modelled; `Render` gathers the decisions for one frame.
*/
module Ui {
  import opened Options
  import opened Types
  import opened IndexMaps

  /** The four spinner frames, shown in turn while an operation is in flight. */
  const THROBBERS: seq<string> := ["│", "╱", "─", "╲"]

  /** Everything the screen shows. `App::default()` is `DefaultApp()`. */
  datatype App = App(
    selectedList: List,
    selectedRow: nat,
    unpaired: IndexMap<Address, Device>,
    paired: IndexMap<Address, Device>,
    error: Option<Error>)
  {
    ghost predicate Valid() {
      unpaired.Valid() && paired.Valid()
    }
  }

  function DefaultApp(): (app: App)
    ensures app.Valid() && app.error == None
    ensures app.selectedList == Unpaired && app.selectedRow == 0
    ensures app.unpaired.Len() == 0 && app.paired.Len() == 0
  {
    App(Unpaired, 0, Empty(), Empty(), None)
  }

  /** The device list behind `list`. */
  function Entries(app: App, list: List): IndexMap<Address, Device> {
    match list
    case Unpaired => app.unpaired
    case Paired => app.paired
  }

  /** The devices of `m` in the map's order (`values().collect()`). */
  function Devices(m: IndexMap<Address, Device>): (ds: seq<Device>)
    requires m.Valid()
    ensures |ds| == m.Len()
    ensures forall i :: 0 <= i < |ds| ==> m.Get(m.keys[i]) == Some(ds[i])
  {
    seq(|m.keys|, i requires 0 <= i < |m.keys| => m.values[m.keys[i]])
  }

  // ---------------------------------------------------------------- legend

  /** The verb the Enter key stands for on `list`. */
  function ActionName(list: List): string {
    match list
    case Unpaired => "pair"
    case Paired => "connect"
  }

  /** The (key, action) pairs of the legend line. */
  function LegendItems(app: App): seq<(string, string)> {
    if app.error.Some? then [("esc", "close")]
    else [("◀▼▲▶", "navigate"), ("q", "quit"), ("s", "scan"), ("↵", ActionName(app.selectedList))]
  }

  /** `parts.join(sep)`. */
  function Join(parts: seq<string>, sep: string): (r: string)
    ensures |parts| == 1 ==> r == parts[0]
  {
    if |parts| == 0 then ""
    else if |parts| == 1 then parts[0]
    else parts[0] + sep + Join(parts[1..], sep)
  }

  /** The legend line: each item as "key: action", joined with " • ". */
  function Legend(app: App): string {
    var items := LegendItems(app);
    Join(seq(|items|, i requires 0 <= i < |items| => items[i].0 + ": " + items[i].1), " • ")
  }

  /** While an error is shown, the legend offers only closing it. */
  lemma LegendWhileError(app: App)
    requires app.error.Some?
    ensures Legend(app) == "esc: close"
  {
    var items := LegendItems(app);
    var parts := seq(|items|, i requires 0 <= i < |items| => items[i].0 + ": " + items[i].1);
    assert |parts| == 1 && parts[0] == "esc: close";
  }

  /** Otherwise it lists navigate, quit, scan and the Enter action of the selected list, in that order. */
  lemma LegendWhileIdle(app: App)
    requires app.error.None?
    ensures Legend(app) == "◀▼▲▶: navigate • q: quit • s: scan • ↵: " + ActionName(app.selectedList)
  {
    var x := ActionName(app.selectedList);
    var items := LegendItems(app);
    var parts := seq(|items|, i requires 0 <= i < |items| => items[i].0 + ": " + items[i].1);
    assert parts == ["◀▼▲▶: navigate", "q: quit", "s: scan", "↵: " + x] by {
      assert |parts| == 4;
      assert parts[0] == "◀▼▲▶: navigate" && parts[1] == "q: quit";
      assert parts[2] == "s: scan" && parts[3] == "↵: " + x;
    }
    assert parts[1..][1..][1..] == ["↵: " + x];
    assert Join(parts[1..][1..][1..], " • ") == "↵: " + x;
    assert parts[1..][1..] == ["s: scan", "↵: " + x];
    assert Join(parts[1..][1..], " • ") == "s: scan" + " • " + ("↵: " + x);
    assert parts[1..] == ["q: quit", "s: scan", "↵: " + x];
    assert Join(parts[1..], " • ") == "q: quit" + " • " + ("s: scan" + " • " + ("↵: " + x));
    assert Join(parts, " • ") == "◀▼▲▶: navigate" + " • " + ("q: quit" + " • " + ("s: scan" + " • " + ("↵: " + x)));
  }

  // ---------------------------------------------------------------- tables

  /** Rust's `bool::to_string`. */
  function BoolText(b: bool): string {
    if b then "true" else "false"
  }

  /** The spinner frame for a loading counter: `THROBBERS[index % 4]`. */
  function Throbber(index: Usize): (r: string)
    ensures r in THROBBERS
  {
    THROBBERS[index % 4]
  }

  /**
    Advancing the counter by one (with the wrap-around of `usize`) always shows the next frame, also
    across the wrap, because 2^64 is a multiple of 4.
  */
  lemma ThrobberAdvances(index: Usize)
    ensures Throbber(WrappingAdd(index, 1)) == THROBBERS[(index as int % 4 + 1) % 4]
  {
    var next := WrappingAdd(index, 1);
    assert USIZE_MODULUS % 4 == 0;
    if index as int + 1 < USIZE_MODULUS {
      assert next as int == index as int + 1;
    } else {
      assert index as int % 4 == 3 && next == 0;
    }
  }

  /** Two counters show the same frame exactly when they agree modulo 4: the period is 4, not less. */
  lemma ThrobberPeriod(i: Usize, j: Usize)
    ensures Throbber(i) == Throbber(j) <==> i % 4 == j % 4
  {
    assert THROBBERS[0] != THROBBERS[1] && THROBBERS[0] != THROBBERS[2] && THROBBERS[0] != THROBBERS[3];
    assert THROBBERS[1] != THROBBERS[2] && THROBBERS[1] != THROBBERS[3] && THROBBERS[2] != THROBBERS[3];
  }

  /**
    The cells of a device's row: its alias; then, in the Paired table only, its connected flag; then,
    only while an operation is in flight, the spinner frame.
  */
  function RowCells(d: Device, list: List): (cells: seq<string>)
    ensures |cells| == 1 + (if list == Paired then 1 else 0) + (if d.loading.Some? then 1 else 0)
    ensures cells[0] == d.alias
    ensures list == Paired ==> cells[1] == BoolText(d.connected)
    ensures d.loading.Some? ==> cells[|cells| - 1] == Throbber(d.loading.value)
  {
    var cells := [d.alias] + (if list == Paired then [BoolText(d.connected)] else []);
    cells + (match d.loading case Some(index) => [Throbber(index)] case None => [])
  }

  /** The header row of a table. */
  function Header(list: List): seq<string> {
    match list
    case Unpaired => ["Alias"]
    case Paired => ["Alias", "Connected"]
  }

  /** Every header names the cell under it: the header covers the row's cells up to the spinner. */
  lemma HeaderLabelsCells(d: Device, list: List)
    ensures |Header(list)| == |RowCells(d, list)| - (if d.loading.Some? then 1 else 0)
    ensures Header(list)[0] == "Alias" && RowCells(d, list)[0] == d.alias
    ensures list == Paired ==> Header(list)[1] == "Connected" && RowCells(d, list)[1] == BoolText(d.connected)
  {
  }

  /** The row the table highlights: the selected row, only on the active table and only when it has rows. */
  function Highlight(app: App, list: List): (r: Option<nat>)
    ensures r.Some? <==> list == app.selectedList && Entries(app, list).Len() > 0
    ensures r.Some? ==> r.value == app.selectedRow
  {
    if list == app.selectedList && Entries(app, list).Len() != 0 then Some(app.selectedRow) else None
  }

  /** One table as drawn. */
  datatype Table = Table(title: string, active: bool, header: seq<string>, rows: seq<seq<string>>, highlight: Option<nat>)

  function TableOf(app: App, list: List): (t: Table)
    requires app.Valid()
    ensures t.title == ListName(list) && t.active == (list == app.selectedList) && t.header == Header(list)
    ensures |t.rows| == Entries(app, list).Len()
    ensures forall i :: 0 <= i < |t.rows| ==>
      Entries(app, list).Get(Entries(app, list).keys[i]).Some? &&
      t.rows[i] == RowCells(Entries(app, list).Get(Entries(app, list).keys[i]).value, list)
    ensures t.highlight.Some? ==> t.highlight.value == app.selectedRow
    ensures t.highlight == Highlight(app, list)
  {
    var devices := Devices(Entries(app, list));
    Table(ListName(list), list == app.selectedList, Header(list),
          seq(|devices|, i requires 0 <= i < |devices| => RowCells(devices[i], list)),
          Highlight(app, list))
  }

  /** When the selected row lies inside the active list, the highlight falls on an existing row. */
  lemma HighlightOnExistingRow(app: App, list: List)
    requires app.Valid()
    requires app.selectedRow < Entries(app, app.selectedList).Len()
    ensures TableOf(app, list).highlight.Some? <==> list == app.selectedList
    ensures TableOf(app, list).highlight.Some? ==> TableOf(app, list).highlight.value < |TableOf(app, list).rows|
  {
  }

  // ---------------------------------------------------------------- error popup

  /** The popup's lines: none without an error, else "Error while <process>" and then the message. */
  function PopupLines(app: App): (r: Option<seq<string>>)
    ensures r.None? <==> app.error.None?
    ensures r.Some? ==> |r.value| == 2 && r.value[1] == app.error.value.message
  {
    match app.error
    case None => None
    case Some(Error(message, process)) => Some(["Error while " + process, message])
  }

  /** The popup's first line names the process and nothing else. */
  lemma PopupNamesProcess(app: App)
    requires app.error.Some?
    ensures PopupLines(app).value[0][..12] == "Error while "
    ensures PopupLines(app).value[0][12..] == app.error.value.process
  {
  }

  // ---------------------------------------------------------------- one frame

  datatype Screen = Screen(unpaired: Table, paired: Table, legend: string, popup: Option<seq<string>>)

  /** The decisions one call of `App::render` makes. */
  function Render(app: App): Screen
    requires app.Valid()
  {
    Screen(TableOf(app, Unpaired), TableOf(app, Paired), Legend(app), PopupLines(app))
  }
}
