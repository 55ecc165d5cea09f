/**
 * Row layout of `draw_arrival_lines` (src/main.py:416-488). Drawing itself is not modelled: a
 * frame is the list of rows the loop draws, each with the row number written at its left, the
 * destination, and the countdown text right-aligned at `countdownX`.
 */
module Layout {
  import Arrivals
  import Countdown

  /** Display settings the loop reads: font size, row padding, x/y offsets, display width and the
      bottom edge of the arrivals area (`arrivals_display_rect[3]`). */
  datatype Geometry = Geometry(fontSize: int, rowPadding: int, xOffset: int, yOffset: int, displayWidth: int, maxY: int)

  /** One drawn row; its first text is `str(number)`. */
  datatype Row = Row(number: nat, y: int, destination: string, countdown: string, countdownX: int)

  /** The arrivals area of a rendered frame: the area is cleared, then these rows are drawn. */
  type Frame = seq<Row>

  /** The top of row `row` (counted from 1). */
  function RowY(row: int, g: Geometry): int {
    (row - 1) * (g.fontSize + g.rowPadding) + g.yOffset
  }

  /** The countdown label of an entry when the clock reads `now`. */
  function LabelAt(e: Arrivals.Entry, now: int, earliest: int, width: string -> int): Countdown.TimeLabel {
    Countdown.TimeToArrival(e.arrivalTime - now, earliest, width)
  }

  /** The entries whose countdown is shown, in order. */
  function Displayed(entries: seq<Arrivals.Entry>, now: int, earliest: int, width: string -> int): seq<Arrivals.Entry> {
    if entries == [] then []
    else
      var head := if LabelAt(entries[0], now, earliest, width).shown then [entries[0]] else [];
      head + Displayed(entries[1..], now, earliest, width)
  }

  /** The rows drawn for `entries` when the next row to draw is `row`. */
  function Plan(entries: seq<Arrivals.Entry>, row: nat, now: int, earliest: int, g: Geometry, width: string -> int): Frame {
    if entries == [] then []
    else
      var l := LabelAt(entries[0], now, earliest, width);
      if !l.shown then Plan(entries[1..], row, now, earliest, g, width)
      else if RowY(row, g) >= g.maxY then []
      else
        var r := Row(row, RowY(row, g), entries[0].destination, l.text, g.displayWidth - l.width - g.xOffset);
        [r] + Plan(entries[1..], row + 1, now, earliest, g, width)
  }

  lemma {:induction false} PlanLength(entries: seq<Arrivals.Entry>, row: nat, now: int, earliest: int, g: Geometry, width: string -> int)
    ensures var d := Plan(entries, row, now, earliest, g, width);
      var shown := Displayed(entries, now, earliest, width);
      && |d| <= |shown|
      && (|d| < |shown| ==> RowY(row + |d|, g) >= g.maxY)
  {
    if entries != [] {
      var rest := entries[1..];
      if !LabelAt(entries[0], now, earliest, width).shown {
        PlanLength(rest, row, now, earliest, g, width);
      } else if RowY(row, g) < g.maxY {
        PlanLength(rest, row + 1, now, earliest, g, width);
      }
    }
  }

  lemma {:induction false} PlanAt(entries: seq<Arrivals.Entry>, row: nat, k: nat, now: int, earliest: int, g: Geometry, width: string -> int)
    requires k < |Plan(entries, row, now, earliest, g, width)|
    ensures var d := Plan(entries, row, now, earliest, g, width);
      var shown := Displayed(entries, now, earliest, width);
      && k < |shown|
      && d[k].number == row + k
      && d[k].y == RowY(row + k, g) < g.maxY
      && d[k].destination == shown[k].destination
      && d[k].countdown == LabelAt(shown[k], now, earliest, width).text
  {
    var rest := entries[1..];
    var l := LabelAt(entries[0], now, earliest, width);
    var d := Plan(entries, row, now, earliest, g, width);
    var shown := Displayed(entries, now, earliest, width);
    if !l.shown {
      assert d == Plan(rest, row, now, earliest, g, width);
      assert shown == Displayed(rest, now, earliest, width);
      PlanAt(rest, row, k, now, earliest, g, width);
    } else {
      var tail := Plan(rest, row + 1, now, earliest, g, width);
      var r := Row(row, RowY(row, g), entries[0].destination, l.text, g.displayWidth - l.width - g.xOffset);
      assert RowY(row, g) < g.maxY;
      assert d == [r] + tail;
      assert shown == [entries[0]] + Displayed(rest, now, earliest, width);
      if k > 0 {
        PlanAt(rest, row + 1, k - 1, now, earliest, g, width);
        assert d[k] == tail[k - 1];
      }
    }
  }

  /**
   * The k-th shown entry (from 0) is drawn as row k + 1 at y = k * (fontSize + rowPadding) + yOffset;
   * entries that are not shown take no row; every drawn row starts above the bottom edge, and
   * drawing stops only at the first row that would start at or below it.
   */
  lemma PlanRows(entries: seq<Arrivals.Entry>, now: int, earliest: int, g: Geometry, width: string -> int)
    ensures var d := Plan(entries, 1, now, earliest, g, width);
      var shown := Displayed(entries, now, earliest, width);
      && |d| <= |shown|
      && (forall k :: 0 <= k < |d| ==>
            && d[k].number == k + 1
            && d[k].y == k * (g.fontSize + g.rowPadding) + g.yOffset < g.maxY
            && d[k].destination == shown[k].destination
            && d[k].countdown == LabelAt(shown[k], now, earliest, width).text)
      && (|d| < |shown| ==> |d| * (g.fontSize + g.rowPadding) + g.yOffset >= g.maxY)
  {
    var d := Plan(entries, 1, now, earliest, g, width);
    PlanLength(entries, 1, now, earliest, g, width);
    forall k | 0 <= k < |d|
      ensures d[k].number == k + 1 && d[k].y == k * (g.fontSize + g.rowPadding) + g.yOffset < g.maxY
      ensures d[k].destination == Displayed(entries, now, earliest, width)[k].destination
      ensures d[k].countdown == LabelAt(Displayed(entries, now, earliest, width)[k], now, earliest, width).text
    {
      PlanAt(entries, 1, k, now, earliest, g, width);
    }
  }

  /** `draw_arrival_lines`: the row counter advances only for shown entries, and the loop
      breaks at the first row whose top is at or below the bottom edge. */
  method DrawArrivalLines(entries: seq<Arrivals.Entry>, now: int, earliest: int, g: Geometry, width: string -> int)
    returns (rows: Frame)
    ensures rows == Plan(entries, 1, now, earliest, g, width)
  {
    rows := [];
    var rowNum: nat := 1;
    var i := 0;
    while i < |entries|
      invariant 0 <= i <= |entries|
      invariant rows + Plan(entries[i..], rowNum, now, earliest, g, width) == Plan(entries, 1, now, earliest, g, width)
    {
      assert entries[i..][1..] == entries[i + 1..];
      var l := Countdown.TimeToArrival(entries[i].arrivalTime - now, earliest, width);
      if l.shown {
        var ypos := (rowNum - 1) * (g.fontSize + g.rowPadding) + g.yOffset;
        if ypos >= g.maxY {
          break;
        }
        var r := Row(rowNum, ypos, entries[i].destination, l.text, g.displayWidth - l.width - g.xOffset);
        assert rows + [r] + Plan(entries[i + 1..], rowNum + 1, now, earliest, g, width)
          == rows + ([r] + Plan(entries[i + 1..], rowNum + 1, now, earliest, g, width));
        rows := rows + [r];
        rowNum := rowNum + 1;
      }
      i := i + 1;
    }
    assert i == |entries| ==> entries[i..] == [];
  }
}
