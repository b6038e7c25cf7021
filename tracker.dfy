/** The page script itself: local storage as an object whose keys the script
    writes one `setItem` at a time, and one page load as an object holding
    the checkboxes, the status badge and the rendered calendar. Each handler
    is proved to perform the transition module Reconcile describes. */
module Tracker {
  import opened Domain
  import opened Reconcile
  import opened Calendar

  /** The browser's local storage, restricted to the tracker's keys. */
  class Storage {
    var lastVisit: Option<Day>
    var flags: map<TaskId, bool>
    var history: Option<History>

    function State(): Persisted
      reads this
    {
      Persisted(lastVisit, flags, history)
    }

    /** Storage as a previous session left it. */
    constructor (p: Persisted)
      ensures State() == p
    {
      lastVisit, flags, history := p.lastVisit, p.flags, p.history;
    }

    /** `getHistory()`: the parsed blob, with an absent key read as `{}`. */
    method GetHistory() returns (h: History)
      ensures history.None? ==> h == map[]
      ensures history.Some? ==> h == history.value
    {
      h := if history.Some? then history.value else map[];
    }

    /** `localStorage.setItem(id, ...)` for a task flag. */
    method SetFlag(t: TaskId, b: bool)
      modifies this`flags
      ensures flags == old(flags)[t := b]
    {
      flags := flags[t := b];
    }

    /** `localStorage.setItem("mission_last_visit", ...)`. */
    method SetLastVisit(d: Day)
      modifies this`lastVisit
      ensures lastVisit == Some(d)
    {
      lastVisit := Some(d);
    }

    /** `localStorage.setItem("mission_history", JSON.stringify(h))`: the
        whole blob is replaced. */
    method SetHistory(h: History)
      modifies this`history
      ensures history == Some(h)
    {
      history := Some(h);
    }
  }

  /** One run of the page script, from `DOMContentLoaded` on. */
  class Page {
    const store: Storage
    /** The day key computed once when the page loads; later handlers reuse it. */
    const today: Day
    var checked: Checks
    /** None while the script has not touched the page's initial badge. */
    var badge: Option<Badge>
    var calendar: seq<Cell>

    /** Every checkbox has a state, and the calendar shows the stored history. */
    ghost predicate Valid()
      reads this, store
    {
      && (forall t: TaskId :: t in checked)
      && IsCalendar(calendar, HistoryOf(store.State()), today)
    }

    /** The load handler: reconcile the stored state with `today`, set the
        checkboxes and badge, then render the calendar. */
    constructor Load(store: Storage, today: Day)
      modifies store
      ensures this.store == store && this.today == today
      ensures store.State() == Reconciled(old(store.State()), today)
      ensures checked == LoadedChecks(old(store.State()), today)
      ensures badge == LoadedBadge(old(store.State()), today)
      ensures Valid()
    {
      this.store := store;
      this.today := today;
      checked := map[];
      badge := None;
      calendar := [];
      new;
      if store.lastVisit != Some(today) {
        StartNewDay();
      } else {
        RestoreSameDay();
      }
      var h := store.GetHistory();
      calendar := RenderCalendar(h, today);
    }

    /** The new-day branch of the load: clear the tasks, auto-fail the last
        visit day if there was one, record today as the last visit and show
        PENDING. */
    method StartNewDay()
      requires NewDay(store.State(), today)
      modifies this`checked, this`badge, store
      ensures store.State() == Reconciled(old(store.State()), today)
      ensures checked == Cleared
      ensures badge == Some(BadgeFor(PENDING))
    {
      var lastVisit := store.lastVisit;
      ClearTasks();
      if lastVisit.Some? {
        CheckAndAutoFailPreviousDay(lastVisit.value);
      }
      store.SetLastVisit(today);
      badge := Some(BadgeFor(PENDING));
    }

    /** The same-day branch of the load: restore the boxes and show today's
        logged status, if there is one. */
    method RestoreSameDay()
      modifies this`checked, this`badge
      ensures checked == Restored(store.flags)
      ensures badge == if Logged(HistoryOf(store.State()), today)
                       then Some(BadgeFor(HistoryOf(store.State())[today]))
                       else old(badge)
    {
      RestoreTasks();
      var history := store.GetHistory();
      if Logged(history, today) {
        badge := Some(BadgeFor(history[today]));
      }
    }

    /** Uncheck every box and store every task flag as "false", one task id
        at a time. */
    method ClearTasks()
      modifies this`checked, store`flags
      ensures checked == Cleared && store.flags == Cleared
    {
      for i := 0 to |TaskIds|
        invariant forall t :: t in TaskIds[..i] ==> t in store.flags && !store.flags[t]
        invariant forall t :: t in TaskIds[..i] ==> t in checked && !checked[t]
      {
        var id := TaskIds[i];
        store.SetFlag(id, false);
        checked := checked[id := false];
      }
      assert TaskIds[..|TaskIds|] == TaskIds;
      TaskIdsComplete();
      CoversEveryTask(Cleared);
    }

    /** Set each box from its stored flag: checked when the flag is "true",
        unchecked when it is "false" or missing. */
    method RestoreTasks()
      modifies this`checked
      ensures checked == Restored(store.flags)
    {
      for i := 0 to |TaskIds|
        invariant forall t :: t in TaskIds[..i] ==>
                    t in checked && checked[t] == (t in store.flags && store.flags[t])
      {
        var id := TaskIds[i];
        var isChecked := id in store.flags && store.flags[id];
        checked := checked[id := isChecked];
      }
      assert TaskIds[..|TaskIds|] == TaskIds;
      TaskIdsComplete();
    }

    /** `checkAndAutoFailPreviousDay(prev)`: write FAILED for `prev` when it
        has no truthy history entry. */
    method CheckAndAutoFailPreviousDay(prev: Day)
      modifies store`history
      ensures store.history == AutoFailed(old(store.history), prev)
    {
      var history := store.GetHistory();
      if !Logged(history, prev) {
        history := history[prev := FAILED];
        store.SetHistory(history);
      }
    }

    /** A checkbox change: the user sets box `t` to `b` and the handler
        stores the new state. */
    method Toggle(t: TaskId, b: bool)
      requires Valid()
      modifies this`checked, store`flags
      ensures Valid()
      ensures checked == old(checked)[t := b]
      ensures store.State() == Toggled(old(store.State()), t, b)
    {
      checked := checked[t := b];
      store.SetFlag(t, b);
    }

    /** The "complete day" button: record SUCCESS or FAILED for the load-time
        day, show it on the badge and re-render the calendar. `allChecked`
        selects which alert the page shows. */
    method CompleteDay() returns (allChecked: bool)
      requires Valid()
      modifies this`badge, this`calendar, store`history
      ensures Valid()
      ensures allChecked <==> forall t: TaskId :: IsChecked(checked, t)
      ensures store.State() == Completed(old(store.State()), today, checked)
      ensures badge == Some(BadgeFor(DayStatus(checked)))
    {
      ghost var boxes := checked;
      allChecked := Every(TaskIds, checked);
      EveryTaskChecked(checked);
      var status := if allChecked then SUCCESS else FAILED;
      var history := store.GetHistory();
      history := history[today := status];
      store.SetHistory(history);
      badge := Some(BadgeFor(status));
      var h := store.GetHistory();
      calendar := RenderCalendar(h, today);
      assert checked == boxes;
    }
  }

  /** Opening the tracker on a day, checking all three tasks and completing
      the day records SUCCESS for that day, shows a green SUCCESS badge and
      shades the calendar's last cell, the one marked today, "success". */
  method CompleteDayScenario(p: Persisted, today: Day)
    returns (saved: Option<string>, badge: Option<Badge>, last: Cell)
    ensures saved == Some(SUCCESS)
    ensures badge == Some(Badge(SUCCESS, AccentGreen))
    ensures last == Cell(today, true, Success)
  {
    var store := new Storage(p);
    var page := new Page.Load(store, today);
    assert page.Valid() && page.store == store && page.today == today;
    page.Toggle(Tuf, true);
    page.Toggle(Cp31, true);
    page.Toggle(Vc, true);
    forall t: TaskId ensures IsChecked(page.checked, t) {
      match t
      case Tuf =>
      case Cp31 =>
      case Vc =>
    }
    var allChecked := page.CompleteDay();
    assert Lookup(HistoryOf(store.State()), today) == Some(SUCCESS);
    var history := store.GetHistory();
    saved := Lookup(history, today);
    badge := page.badge;
    last := page.calendar[Window - 1];
  }
}
