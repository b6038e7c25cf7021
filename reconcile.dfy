/** The persisted state of the tracker and what each handler does to it,
    as values: the load-time reconciliation (new day or same day), the
    auto-fail of the previous visit day, a checkbox change and the
    "complete day" save. The page class in module Tracker is proved to
    perform exactly these transitions. */
module Reconcile {
  import opened Domain

  /** What local storage holds for the tracker: `mission_last_visit`, one
      flag per task id, and the `mission_history` blob (None while the key
      has never been written). */
  datatype Persisted = Persisted(lastVisit: Option<Day>, flags: map<TaskId, bool>, history: Option<History>)

  /** `getHistory()`: the stored history, or `{}` when the key is absent. */
  function HistoryOf(p: Persisted): History {
    p.history.GetOr(map[])
  }

  /** The load is a new day when the stored last visit is not today (a
      first visit, with no stored last visit, is one too). */
  predicate NewDay(p: Persisted, today: Day) {
    p.lastVisit != Some(today)
  }

  /** Every task flag written as "false". */
  const Cleared: map<TaskId, bool> := map[Tuf := false, Cp31 := false, Vc := false]

  /** `checkAndAutoFailPreviousDay(prev)` on the stored blob: an unlogged
      `prev` is written FAILED and the blob rewritten; otherwise the blob is
      left exactly as it was. */
  function AutoFailed(blob: Option<History>, prev: Day): (r: Option<History>)
    ensures Logged(r.GetOr(map[]), prev)
    ensures Logged(blob.GetOr(map[]), prev) ==> r == blob
    ensures !Logged(blob.GetOr(map[]), prev) ==> Lookup(r.GetOr(map[]), prev) == Some(FAILED)
    ensures forall d :: d != prev ==> Lookup(r.GetOr(map[]), d) == Lookup(blob.GetOr(map[]), d)
  {
    var h := blob.GetOr(map[]);
    if Logged(h, prev) then blob else Some(h[prev := FAILED])
  }

  /** The store after the load-time reconciliation. */
  function Reconciled(p: Persisted, today: Day): (r: Persisted)
    ensures r.lastVisit == Some(today)
    ensures Lookup(HistoryOf(r), today) == Lookup(HistoryOf(p), today)
    ensures !NewDay(p, today) ==> r == p
    ensures NewDay(p, today) ==> forall t: TaskId :: t in r.flags && !r.flags[t]
  {
    CoversEveryTask(Cleared);
    if !NewDay(p, today) then p
    else
      Persisted(Some(today), Cleared,
                if p.lastVisit.Some? then AutoFailed(p.history, p.lastVisit.value) else p.history)
  }

  /** The checkbox states restored from the flags: a task is checked when
      its stored flag is "true"; a missing flag reads as unchecked. */
  function Restored(flags: map<TaskId, bool>): (c: Checks)
    ensures forall t: TaskId :: t in c
    ensures forall t: TaskId :: IsChecked(c, t) <==> t in flags && flags[t]
  {
    var c := map[Tuf := Tuf in flags && flags[Tuf],
                 Cp31 := Cp31 in flags && flags[Cp31],
                 Vc := Vc in flags && flags[Vc]];
    CoversEveryTask(c);
    c
  }

  /** The checkbox states the load leaves on the page: all unchecked on a
      new day, each box from its stored flag on the same day. */
  function LoadedChecks(p: Persisted, today: Day): (c: Checks)
    ensures forall t: TaskId :: t in c
    ensures NewDay(p, today) ==> forall t: TaskId :: !IsChecked(c, t)
    ensures !NewDay(p, today) ==> forall t: TaskId :: IsChecked(c, t) <==> t in p.flags && p.flags[t]
  {
    CoversEveryTask(Cleared);
    if NewDay(p, today) then Cleared else Restored(p.flags)
  }

  /** The badge the load sets; None when it leaves the page's initial badge
      alone (same day, nothing logged for today yet). */
  function LoadedBadge(p: Persisted, today: Day): (b: Option<Badge>)
    ensures b.Some? <==> NewDay(p, today) || Logged(HistoryOf(p), today)
    ensures NewDay(p, today) ==> b == Some(Badge(PENDING, TextMuted))
    ensures !NewDay(p, today) && b.Some? ==> b.value.text == HistoryOf(p)[today]
  {
    if NewDay(p, today) then Some(BadgeFor(PENDING))
    else if Logged(HistoryOf(p), today) then Some(BadgeFor(HistoryOf(p)[today]))
    else None
  }

  /** A checkbox change handler: the task's flag records the new state. */
  function Toggled(p: Persisted, t: TaskId, b: bool): (r: Persisted)
    ensures r.lastVisit == p.lastVisit && r.history == p.history
    ensures t in r.flags && r.flags[t] == b
    ensures forall u :: u != t ==> (u in r.flags <==> u in p.flags)
    ensures forall u :: u != t && u in p.flags ==> r.flags[u] == p.flags[u]
  {
    p.(flags := p.flags[t := b])
  }

  /** The "complete day" save: today's history entry becomes the status of
      the checkboxes, whatever it was before; every other day and the rest
      of the store are untouched. */
  function Completed(p: Persisted, today: Day, c: Checks): (r: Persisted)
    ensures r.lastVisit == p.lastVisit && r.flags == p.flags && r.history.Some?
    ensures Lookup(HistoryOf(r), today) == Some(SUCCESS) <==> forall t: TaskId :: IsChecked(c, t)
    ensures Lookup(HistoryOf(r), today) == Some(FAILED) <==> exists t: TaskId :: !IsChecked(c, t)
    ensures forall d :: d != today ==> Lookup(HistoryOf(r), d) == Lookup(HistoryOf(p), d)
  {
    p.(history := Some(HistoryOf(p)[today := DayStatus(c)]))
  }

  /** On a new day every checkbox and every stored flag ends up unchecked,
      the last visit becomes today and the badge reads PENDING in the muted
      colour. */
  lemma NewDayResets(p: Persisted, today: Day)
    requires NewDay(p, today)
    ensures forall t: TaskId :: !IsChecked(LoadedChecks(p, today), t)
    ensures forall t: TaskId :: !IsChecked(Reconciled(p, today).flags, t)
    ensures Reconciled(p, today).lastVisit == Some(today)
    ensures LoadedBadge(p, today) == Some(Badge(PENDING, TextMuted))
  {
  }

  /** The history changes on load only through the auto-fail of the stored
      last visit day: nothing happens on the same day or on a first visit;
      otherwise only that day may change, from unlogged to FAILED, and a
      logged entry is never overwritten. */
  lemma AutoFailOnlyPreviousDay(p: Persisted, today: Day)
    ensures p.lastVisit.None? || p.lastVisit == Some(today) ==>
              Reconciled(p, today).history == p.history
    ensures p.lastVisit.Some? ==>
              forall d :: d != p.lastVisit.value ==>
                Lookup(HistoryOf(Reconciled(p, today)), d) == Lookup(HistoryOf(p), d)
    ensures p.lastVisit.Some? && Logged(HistoryOf(p), p.lastVisit.value) ==>
              Reconciled(p, today).history == p.history
    ensures p.lastVisit.Some? && p.lastVisit != Some(today) && !Logged(HistoryOf(p), p.lastVisit.value) ==>
              Lookup(HistoryOf(Reconciled(p, today)), p.lastVisit.value) == Some(FAILED)
  {
  }

  /** Loading twice on the same day: the second load takes the same-day
      branch, so store and checkboxes stay as the first load left them; the
      second badge is today's logged status, or the page's initial badge. */
  lemma ReloadIsSameDay(p: Persisted, today: Day)
    ensures !NewDay(Reconciled(p, today), today)
    ensures Reconciled(Reconciled(p, today), today) == Reconciled(p, today)
    ensures LoadedChecks(Reconciled(p, today), today) == LoadedChecks(p, today)
    ensures LoadedBadge(Reconciled(p, today), today) ==
              if Logged(HistoryOf(p), today) then Some(BadgeFor(HistoryOf(p)[today])) else None
  {
  }

  /** A change handler's write is what the next same-day load restores:
      the toggled task comes back as set, the others as they were. */
  lemma ToggleThenReload(p: Persisted, today: Day, t: TaskId, b: bool)
    requires !NewDay(p, today)
    ensures IsChecked(LoadedChecks(Toggled(p, t, b), today), t) == b
    ensures forall u: TaskId :: u != t ==>
              IsChecked(LoadedChecks(Toggled(p, t, b), today), u) == IsChecked(LoadedChecks(p, today), u)
  {
  }

  /** Saving twice on one day: the second save's status replaces the first
      (SUCCESS flips to FAILED after unchecking a task), and no other day is
      touched by either. */
  lemma ResaveOverwrites(p: Persisted, today: Day, first: Checks, second: Checks)
    ensures Lookup(HistoryOf(Completed(Completed(p, today, first), today, second)), today) ==
              Some(DayStatus(second))
    ensures forall d :: d != today ==>
              Lookup(HistoryOf(Completed(Completed(p, today, first), today, second)), d) == Lookup(HistoryOf(p), d)
  {
  }

  /** Only verdicts are ever saved: a history holding nothing but SUCCESS
      and FAILED keeps that shape through every transition. PENDING shows on
      the badge but is never written. */
  ghost predicate OnlyVerdicts(h: History) {
    forall d :: d in h ==> h[d] == SUCCESS || h[d] == FAILED
  }

  lemma ReconciledKeepsVerdicts(p: Persisted, today: Day)
    requires OnlyVerdicts(HistoryOf(p))
    ensures OnlyVerdicts(HistoryOf(Reconciled(p, today)))
  {
    AutoFailOnlyPreviousDay(p, today);
    var r := Reconciled(p, today);
    forall d | d in HistoryOf(r)
      ensures HistoryOf(r)[d] == SUCCESS || HistoryOf(r)[d] == FAILED
    {
      assert Lookup(HistoryOf(r), d) == Some(HistoryOf(r)[d]);
    }
  }

  lemma ToggledKeepsVerdicts(p: Persisted, t: TaskId, b: bool)
    requires OnlyVerdicts(HistoryOf(p))
    ensures OnlyVerdicts(HistoryOf(Toggled(p, t, b)))
  {
  }

  lemma CompletedKeepsVerdicts(p: Persisted, today: Day, c: Checks)
    requires OnlyVerdicts(HistoryOf(p))
    ensures OnlyVerdicts(HistoryOf(Completed(p, today, c)))
  {
    var r := Completed(p, today, c);
    forall d | d in HistoryOf(r)
      ensures HistoryOf(r)[d] == SUCCESS || HistoryOf(r)[d] == FAILED
    {
      assert Lookup(HistoryOf(r), d) == Some(HistoryOf(r)[d]);
    }
  }

  /** After a save, a reload on the same day shows the saved status on the
      badge and keeps it in history. */
  lemma SaveThenReload(p: Persisted, today: Day, c: Checks)
    requires !NewDay(p, today)
    ensures LoadedBadge(Completed(p, today, c), today) == Some(BadgeFor(DayStatus(c)))
    ensures Reconciled(Completed(p, today, c), today) == Completed(p, today, c)
  {
  }
}
