/** Values shared by the whole tracker: days, tasks, status strings, the
    history map, and the two pure classifications of a status (the badge
    colour and the calendar shade). */
module Domain {

  datatype Option<T> = None | Some(value: T) {
    function GetOr(default: T): T {
      match this
      case Some(v) => v
      case None => default
    }
  }

  /** A calendar day. It stands for the day's `YYYY-MM-DD` key; consecutive
      days are consecutive integers. */
  type Day = int

  /** The three daily tasks, named after their checkbox ids
      `task-tuf`, `task-cp31` and `task-vc`. */
  datatype TaskId = Tuf | Cp31 | Vc

  /** `TASK_IDS`, in the order the page walks it. */
  const TaskIds: seq<TaskId> := [Tuf, Cp31, Vc]

  const SUCCESS: string := "SUCCESS"
  const FAILED: string := "FAILED"
  const PENDING: string := "PENDING"

  /** The parsed `mission_history` object: day key to the status string stored for it. */
  type History = map<Day, string>

  /** `history[key]`, with `undefined` as None. */
  function Lookup(h: History, d: Day): Option<string> {
    if d in h then Some(h[d]) else None
  }

  /** `history[key]` is truthy: the key is present and its string is not empty. */
  predicate Logged(h: History, d: Day) {
    d in h && h[d] != ""
  }

  /** `TASK_IDS` lists every task. */
  lemma TaskIdsComplete()
    ensures forall t: TaskId :: t in TaskIds
  {
    forall t: TaskId ensures t in TaskIds {
      match t
      case Tuf => assert TaskIds[0] == t;
      case Cp31 => assert TaskIds[1] == t;
      case Vc => assert TaskIds[2] == t;
    }
  }

  /** A map with an entry for each of the three tasks covers every task. */
  lemma CoversEveryTask<V>(m: map<TaskId, V>)
    requires Tuf in m && Cp31 in m && Vc in m
    ensures forall t: TaskId :: t in m
  {
    forall t: TaskId ensures t in m {
      match t
      case Tuf =>
      case Cp31 =>
      case Vc =>
    }
  }

  /** Checkbox states; a task missing from the map is unchecked. */
  type Checks = map<TaskId, bool>

  predicate IsChecked(c: Checks, t: TaskId) {
    t in c && c[t]
  }

  /** `ids.every(id => checked)`, walking the list front to back. */
  function Every(ids: seq<TaskId>, c: Checks): (r: bool)
    ensures r <==> forall i :: 0 <= i < |ids| ==> IsChecked(c, ids[i])
  {
    if ids == [] then true else IsChecked(c, ids[0]) && Every(ids[1..], c)
  }

  /** Walking `TASK_IDS` visits every task, so `every` over it holds exactly
      when each of the three tasks is checked. */
  lemma EveryTaskChecked(c: Checks)
    ensures Every(TaskIds, c) <==> forall t: TaskId :: IsChecked(c, t)
  {
    if Every(TaskIds, c) {
      forall t: TaskId ensures IsChecked(c, t) {
        match t
        case Tuf => assert t == TaskIds[0];
        case Cp31 => assert t == TaskIds[1];
        case Vc => assert t == TaskIds[2];
      }
    }
  }

  /** The status the "complete day" button records: SUCCESS when every task
      is checked, FAILED as soon as one is not. */
  function DayStatus(c: Checks): (status: string)
    ensures status == SUCCESS <==> forall t: TaskId :: IsChecked(c, t)
    ensures status == FAILED <==> exists t: TaskId :: !IsChecked(c, t)
    ensures status != ""
  {
    EveryTaskChecked(c);
    if Every(TaskIds, c) then SUCCESS else FAILED
  }

  /** The colours `updateStatusBadge` may give the badge. */
  datatype Colour = AccentGreen | AccentRed | TextMuted

  /** What the status badge shows: its text and its colour. */
  datatype Badge = Badge(text: string, colour: Colour)

  /** `updateStatusBadge(status)`: the badge shows the status text, green
      for SUCCESS, red for FAILED and muted for anything else (PENDING
      included). */
  function BadgeFor(status: string): (b: Badge)
    ensures b.text == status
    ensures b.colour == AccentGreen <==> status == SUCCESS
    ensures b.colour == AccentRed <==> status == FAILED
    ensures b.colour == TextMuted <==> status != SUCCESS && status != FAILED
  {
    Badge(status,
          if status == SUCCESS then AccentGreen
          else if status == FAILED then AccentRed
          else TextMuted)
  }

  /** The colour class a calendar cell receives from the history. */
  datatype Shade = Success | Failed | Uncoloured

  /** A cell is "success" exactly for a SUCCESS entry, "failed" exactly for
      a FAILED entry, and uncoloured for a missing day or any other string. */
  function ShadeOf(h: History, d: Day): (s: Shade)
    ensures s == Success <==> d in h && h[d] == SUCCESS
    ensures s == Failed <==> d in h && h[d] == FAILED
    ensures s == Uncoloured <==> d !in h || (h[d] != SUCCESS && h[d] != FAILED)
  {
    if Lookup(h, d) == Some(SUCCESS) then Success
    else if Lookup(h, d) == Some(FAILED) then Failed
    else Uncoloured
  }

  /** The calendar shades a day by the same rule the badge colours a status:
      a missing day is uncoloured, a present one is shaded exactly as its
      status would colour the badge. */
  lemma ShadeMatchesBadge(h: History, d: Day)
    ensures d !in h ==> ShadeOf(h, d) == Uncoloured
    ensures d in h ==> (ShadeOf(h, d) == Success <==> BadgeFor(h[d]).colour == AccentGreen)
    ensures d in h ==> (ShadeOf(h, d) == Failed <==> BadgeFor(h[d]).colour == AccentRed)
    ensures d in h ==> (ShadeOf(h, d) == Uncoloured <==> BadgeFor(h[d]).colour == TextMuted)
  {
  }
}
