/** The calendar strip: a fixed window of the last 28 days, oldest first,
    ending today, each cell shaded from the history. */
module Calendar {
  import opened Domain

  /** Number of cells the strip shows (four weeks). */
  const Window: nat := 28

  /** One cell of the strip: its day, whether it carries the "today" mark,
      and the colour class taken from the history. */
  datatype Cell = Cell(day: Day, isToday: bool, shade: Shade)

  /** `cells` is the strip for history `h` seen on `today`. */
  ghost predicate IsCalendar(cells: seq<Cell>, h: History, today: Day) {
    && |cells| == Window
    && (forall k :: 0 <= k < |cells| ==> cells[k].day == today - (Window - 1) + k)
    && (forall k :: 0 <= k < |cells| ==> (cells[k].isToday <==> cells[k].day == today))
    && (forall k :: 0 <= k < |cells| ==> cells[k].shade == ShadeOf(h, cells[k].day))
  }

  /** `renderCalendar`: counts `i` down from 27 to 0 and appends the cell for
      `today - i`, so the cells come out oldest first. The history is taken
      by value: rendering cannot change it. */
  method RenderCalendar(h: History, today: Day) returns (cells: seq<Cell>)
    ensures IsCalendar(cells, h, today)
  {
    cells := [];
    var i := 27;
    while i >= 0
      invariant -1 <= i <= 27
      invariant |cells| == 27 - i
      invariant forall k :: 0 <= k < |cells| ==> cells[k].day == today - 27 + k
      invariant forall k :: 0 <= k < |cells| ==> (cells[k].isToday <==> cells[k].day == today)
      invariant forall k :: 0 <= k < |cells| ==> cells[k].shade == ShadeOf(h, cells[k].day)
    {
      var d := today - i;
      var cell := Cell(d, d == today, ShadeOf(h, d));
      cells := cells + [cell];
      i := i - 1;
    }
  }

  /** The strip lists the days `today - 27` to `today` in strictly increasing
      order, and only its last cell is marked as today. */
  lemma CalendarOrder(cells: seq<Cell>, h: History, today: Day)
    requires IsCalendar(cells, h, today)
    ensures cells[0].day == today - 27 && cells[Window - 1].day == today
    ensures forall j, k :: 0 <= j < k < |cells| ==> cells[j].day < cells[k].day
    ensures forall k :: 0 <= k < |cells| ==> (cells[k].isToday <==> k == Window - 1)
    ensures forall k :: 0 <= k < |cells| - 1 ==> cells[k + 1].day == cells[k].day + 1
  {
  }

  /** A cell is shaded "success" exactly for a SUCCESS entry and "failed"
      exactly for a FAILED entry; a missing day or any other string leaves
      it uncoloured. */
  lemma CalendarShades(cells: seq<Cell>, h: History, today: Day, k: nat)
    requires IsCalendar(cells, h, today) && k < |cells|
    ensures cells[k].shade == Success <==> cells[k].day in h && h[cells[k].day] == SUCCESS
    ensures cells[k].shade == Failed <==> cells[k].day in h && h[cells[k].day] == FAILED
    ensures cells[k].shade == Uncoloured <==>
              cells[k].day !in h || (h[cells[k].day] != SUCCESS && h[cells[k].day] != FAILED)
  {
  }

  /** The strip is determined by the history and the day: two renderings
      agree cell by cell. */
  lemma CalendarUnique(a: seq<Cell>, b: seq<Cell>, h: History, today: Day)
    requires IsCalendar(a, h, today) && IsCalendar(b, h, today)
    ensures a == b
  {
  }

  /** Only the window's days matter: histories that agree on `today - 27` to
      `today` give the same strip, so entries outside it never show. */
  lemma CalendarSeesOnlyWindow(cells: seq<Cell>, h: History, g: History, today: Day)
    requires IsCalendar(cells, h, today)
    requires forall d :: today - 27 <= d <= today ==> Lookup(h, d) == Lookup(g, d)
    ensures IsCalendar(cells, g, today)
  {
  }
}
