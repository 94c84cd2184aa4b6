/**
 * One check cycle of a watcher: fetch the weeks that hold its target dates, keep the slots on
 * target dates, notify about the ones not yet recorded, record them when the notification went
 * out, forget recorded slots that are no longer offered, and stamp the check time.
 *
 * The database is a class with the two tables the cycle touches: watchers by id, and the set of
 * notified-slot rows (the unique constraint on watcher, date and time makes it a set).  Clocks,
 * the remote calendar and the transports are an `Environment` value.
 */
module Reconcile {
  import opened Wrappers
  import opened SlotParser
  import opened WeekOffsets
  import opened Notify

  /** A row of the `watchers` table, without the columns the cycle never reads. */
  datatype Watcher = Watcher(
    id: int,
    doctorName: string,
    doctorUrl: string,
    doctorCode: string,
    targetDates: seq<string>,
    notificationType: string,
    telegramBotToken: Option<string>,
    telegramChatId: Option<string>,
    email: Option<string>,
    isActive: bool,
    lastCheckAt: Option<int>)

  /** A row of the `notified_slots` table. */
  datatype NotifiedRow = NotifiedRow(watcherId: int, date: string, time: string)

  /** What the cycle reads from outside the database: today's date and the current time, date
      parsing, the remote calendar (the calendar POST of `check_appointments`: doctor code,
      doctor URL sent as the `Referer` header, and week offset to the page, `None` when the
      request fails), the Mailjet settings, and whether the transport accepts the message. */
  datatype Environment = Environment(
    today: int,
    now: int,
    parseDate: string -> Option<int>,
    fetch: (string, string, int) -> Option<Page>,
    mailjet: MailjetConfig,
    transportOk: bool)

  /** The cycle as the source is written, or with both findings corrected: week offsets counted
      from the Monday of the current week, and each new slot notified and recorded once. */
  datatype Policy = AsWritten | Corrected

  /** The day week offsets are counted from. */
  function Origin(policy: Policy, today: int): int
  {
    if policy == AsWritten then today else MondayOf(today)
  }

  /** How the cycle ended: nothing to do, rolled back after an error, or run to the end. */
  datatype Outcome = Skipped | Failed | Completed

  /** The two tables. */
  datatype DbState = DbState(watchers: map<int, Watcher>, notified: set<NotifiedRow>)

  /** The new slots found, whether the notification about them succeeded, the request
      attempted, and the database afterwards. */
  datatype CycleResult = CycleResult(
    outcome: Outcome,
    newSlots: seq<Slot>,
    delivered: bool,
    attempted: Option<Notification>,
    after: DbState)

  function RowOf(watcherId: int, s: Slot): NotifiedRow
  {
    NotifiedRow(watcherId, s.date, s.time)
  }

  /** The rows a list of slots would add. */
  function Rows(watcherId: int, slots: seq<Slot>): set<NotifiedRow>
  {
    set s | s in slots :: RowOf(watcherId, s)
  }

  /** The rows of one watcher. */
  function RowsOfWatcher(rows: set<NotifiedRow>, watcherId: int): set<NotifiedRow>
  {
    set r | r in rows && r.watcherId == watcherId
  }

  /** The text `f"{date}_{time}"` that availability is compared by. */
  function Key(date: string, time: string): string
  {
    date + "_" + time
  }

  /** The keys of the currently offered slots. */
  function Keys(slots: seq<Slot>): set<string>
  {
    set s | s in slots :: Key(s.date, s.time)
  }

  /** `[s for s in slots if s['date'] in target_dates]`. */
  function FilterTargets(slots: seq<Slot>, targets: seq<string>): (r: seq<Slot>)
    ensures forall s :: s in r <==> s in slots && s.date in targets
  {
    if slots == [] then []
    else
      var last := slots[|slots| - 1];
      assert slots == slots[..|slots| - 1] + [last];
      FilterTargets(slots[..|slots| - 1], targets) + (if last.date in targets then [last] else [])
  }

  /** The target-date slots of one fetched week; a failed or empty response gives none. */
  function WeekSlots(targets: seq<string>, page: Option<Page>): seq<Slot>
  {
    match page
    case Some(p) => if p.text != "" then FilterTargets(PageSlots(p), targets) else []
    case None => []
  }

  /** `all_slots`: the target-date slots of every week, week by week. */
  function Gather(w: Watcher, weeks: seq<int>, fetch: (string, string, int) -> Option<Page>): seq<Slot>
  {
    if weeks == [] then []
    else Gather(w, weeks[..|weeks| - 1], fetch) + WeekSlots(w.targetDates, fetch(w.doctorCode, w.doctorUrl, weeks[|weeks| - 1]))
  }

  /** `new_slots`: the gathered slots without a row, in order.  As written a slot listed twice
      is kept twice; corrected, only its first occurrence is kept. */
  function NewSlots(all: seq<Slot>, rows: set<NotifiedRow>, watcherId: int, policy: Policy): seq<Slot>
  {
    if all == [] then []
    else
      var prev := NewSlots(all[..|all| - 1], rows, watcherId, policy);
      var s := all[|all| - 1];
      if RowOf(watcherId, s) in rows || (policy == Corrected && RowOf(watcherId, s) in Rows(watcherId, prev)) then prev
      else prev + [s]
  }

  /** Two slots of the list share a date and a time, so that one watcher's rows for them break
      the unique constraint on watcher, date and time. */
  predicate HasDuplicate(slots: seq<Slot>)
  {
    exists i, j :: 0 <= i < j < |slots| && slots[i].date == slots[j].date && slots[i].time == slots[j].time
  }

  /** The rows of `watcherId` whose key is no longer offered are deleted. */
  function Prune(rows: set<NotifiedRow>, watcherId: int, keys: set<string>): set<NotifiedRow>
  {
    set r | r in rows && (r.watcherId != watcherId || Key(r.date, r.time) in keys)
  }

  /** The notification route: e-mail when the watcher asks for it, Telegram otherwise. */
  function Dispatch(w: Watcher, slots: seq<Slot>, env: Environment): SendResult
  {
    if w.notificationType == "email" then
      EmailOutcome(env.mailjet, w.email, w.doctorName, w.doctorUrl, slots, env.transportOk)
    else
      TelegramOutcome(w.telegramBotToken, w.telegramChatId, w.doctorName, w.doctorUrl, slots, env.transportOk)
  }

  /** `check_watcher_job` on the database state `db`. */
  function CheckWatcher(db: DbState, id: int, env: Environment, policy: Policy): CycleResult
  {
    if id !in db.watchers || !db.watchers[id].isActive then CycleResult(Skipped, [], false, None, db)
    else
      var w := db.watchers[id];
      match WeekOffsetsOf(w.targetDates, env.today, Origin(policy, env.today), env.parseDate)
      case None => CycleResult(Failed, [], false, None, db)
      case Some(weeks) =>
        if weeks == [] then CycleResult(Skipped, [], false, None, db)
        else
          var all := Gather(w, weeks, env.fetch);
          var newSlots := NewSlots(all, db.notified, id, policy);
          var sent := if newSlots == [] then SendResult(false, None) else Dispatch(w, newSlots, env);
          if sent.success && HasDuplicate(newSlots) then CycleResult(Failed, newSlots, true, sent.attempted, db)
          else
            var rows := if sent.success then db.notified + Rows(id, newSlots) else db.notified;
            var watchers := db.watchers[id := w.(lastCheckAt := Some(env.now))];
            CycleResult(Completed, newSlots, sent.success, sent.attempted, DbState(watchers, Prune(rows, id, Keys(all))))
  }

  /** The tables the cycle reads and writes. */
  class WatchDatabase {
    var watchers: map<int, Watcher>
    var notified: set<NotifiedRow>

    function State(): DbState
      reads this
    {
      DbState(watchers, notified)
    }

    constructor (watchers: map<int, Watcher>, notified: set<NotifiedRow>)
      ensures State() == DbState(watchers, notified)
    {
      this.watchers := watchers;
      this.notified := notified;
    }

    /** `check_watcher_job`, step by step as the source runs it.  A commit is an assignment to
        the fields; the failing commit of a duplicated row leaves them as they were. */
    method CheckWatcherJob(watcherId: int, env: Environment, policy: Policy)
      returns (outcome: Outcome, attempted: Option<Notification>)
      modifies this
      ensures var r := CheckWatcher(old(State()), watcherId, env, policy);
        outcome == r.outcome && attempted == r.attempted && State() == r.after
    {
      if watcherId !in watchers || !watchers[watcherId].isActive {
        return Skipped, None;
      }
      var watcher := watchers[watcherId];
      var weekOffsets := CalculateWeekOffsets(watcher.targetDates, env.today, Origin(policy, env.today), env.parseDate);
      if weekOffsets.None? {
        return Failed, None;
      }
      var weeks := weekOffsets.value;
      if weeks == [] {
        return Skipped, None;
      }

      var allSlots := GatherSlots(watcher, weeks, env.fetch);
      var newSlots := SelectNewSlots(allSlots, notified, watcherId, policy);

      attempted := None;
      var rows := notified;
      if newSlots != [] {
        var result: SendResult;
        if watcher.notificationType == "email" {
          result := SendEmailNotification(env.mailjet, watcher.email, watcher.doctorName, watcher.doctorUrl, newSlots, env.transportOk);
        } else {
          result := SendTelegramNotification(watcher.telegramBotToken, watcher.telegramChatId, watcher.doctorName,
                                             watcher.doctorUrl, newSlots, env.transportOk);
        }
        attempted := result.attempted;
        if result.success {
          var added, conflict := PendingRows(watcherId, newSlots);
          if conflict {
            return Failed, attempted;
          }
          rows := rows + added;
          notified := rows;
        }
      }

      var currentlyAvailable := AvailableKeys(allSlots);
      notified := PruneRows(rows, watcherId, currentlyAvailable);
      watchers := watchers[watcherId := watcher.(lastCheckAt := Some(env.now))];
      outcome := Completed;
    }
  }

  /** The fetch loop: each week's page, when there is one, parsed and filtered to target dates. */
  method GatherSlots(w: Watcher, weeks: seq<int>, fetch: (string, string, int) -> Option<Page>) returns (allSlots: seq<Slot>)
    ensures allSlots == Gather(w, weeks, fetch)
  {
    allSlots := [];
    var i := 0;
    while i < |weeks|
      invariant 0 <= i <= |weeks|
      invariant allSlots == Gather(w, weeks[..i], fetch)
    {
      var htmlContent := fetch(w.doctorCode, w.doctorUrl, weeks[i]);
      if htmlContent.Some? && htmlContent.value.text != "" {
        var slots := ParseAvailableSlots(htmlContent.value);
        allSlots := allSlots + FilterTargets(slots, w.targetDates);
      }
      assert weeks[..i + 1][..i] == weeks[..i];
      i := i + 1;
    }
    assert weeks[..i] == weeks;
  }

  /** The new-slot loop: one lookup of the slot's row per gathered slot. */
  method SelectNewSlots(all: seq<Slot>, rows: set<NotifiedRow>, watcherId: int, policy: Policy) returns (newSlots: seq<Slot>)
    ensures newSlots == NewSlots(all, rows, watcherId, policy)
  {
    newSlots := [];
    var seen: set<NotifiedRow> := {};
    var i := 0;
    while i < |all|
      invariant 0 <= i <= |all|
      invariant newSlots == NewSlots(all[..i], rows, watcherId, policy)
      invariant seen == Rows(watcherId, newSlots)
    {
      var slot := all[i];
      var row := RowOf(watcherId, slot);
      var alreadyNotified := row in rows;
      assert all[..i + 1][..i] == all[..i] && all[..i + 1][i] == slot;
      if !alreadyNotified && !(policy == Corrected && row in seen) {
        RowsSnoc(watcherId, newSlots, slot);
        newSlots := newSlots + [slot];
        seen := seen + {row};
      }
      i := i + 1;
    }
    assert all[..i] == all;
  }

  /** The insert loop: one pending row per new slot; a row pending twice breaks the unique
      constraint at commit. */
  method PendingRows(watcherId: int, slots: seq<Slot>) returns (added: set<NotifiedRow>, conflict: bool)
    ensures added == Rows(watcherId, slots)
    ensures conflict == HasDuplicate(slots)
  {
    added := {};
    conflict := false;
    var i := 0;
    while i < |slots|
      invariant 0 <= i <= |slots|
      invariant added == Rows(watcherId, slots[..i])
      invariant conflict == HasDuplicate(slots[..i])
    {
      var row := RowOf(watcherId, slots[i]);
      DuplicateSnoc(watcherId, slots[..i], slots[i]);
      RowsSnoc(watcherId, slots[..i], slots[i]);
      assert slots[..i + 1] == slots[..i] + [slots[i]];
      if row in added {
        conflict := true;
      }
      added := added + {row};
      i := i + 1;
    }
    assert slots[..i] == slots;
  }

  /** `currently_available_set`. */
  method AvailableKeys(all: seq<Slot>) returns (keys: set<string>)
    ensures keys == Keys(all)
  {
    keys := {};
    var i := 0;
    while i < |all|
      invariant 0 <= i <= |all|
      invariant keys == Keys(all[..i])
    {
      assert all[..i + 1] == all[..i] + [all[i]];
      keys := keys + {Key(all[i].date, all[i].time)};
      i := i + 1;
    }
    assert all[..i] == all;
  }

  /** The delete loop over the watcher's rows. */
  method PruneRows(rows: set<NotifiedRow>, watcherId: int, keys: set<string>) returns (kept: set<NotifiedRow>)
    ensures kept == Prune(rows, watcherId, keys)
  {
    var allNotifiedSlots := RowsOfWatcher(rows, watcherId);
    var todo := allNotifiedSlots;
    kept := rows;
    var deletedCount := 0;
    while exists r :: r in todo
      invariant todo <= allNotifiedSlots
      invariant forall r :: r in kept <==> r in rows && (r in todo || r.watcherId != watcherId || Key(r.date, r.time) in keys)
      decreases |todo|
    {
      var notifiedSlot :| notifiedSlot in todo;
      var slotKey := Key(notifiedSlot.date, notifiedSlot.time);
      if slotKey !in keys {
        kept := kept - {notifiedSlot};
        deletedCount := deletedCount + 1;
      }
      todo := todo - {notifiedSlot};
    }
  }

  // ----- helper facts -----

  lemma RowsSnoc(watcherId: int, slots: seq<Slot>, s: Slot)
    ensures Rows(watcherId, slots + [s]) == Rows(watcherId, slots) + {RowOf(watcherId, s)}
  {
    var xs := slots + [s];
    assert forall x :: x in xs <==> x in slots || x == s;
  }

  lemma DuplicateSnoc(watcherId: int, slots: seq<Slot>, s: Slot)
    ensures HasDuplicate(slots + [s]) <==> HasDuplicate(slots) || RowOf(watcherId, s) in Rows(watcherId, slots)
  {
    var xs := slots + [s];
    var n := |slots|;
    if HasDuplicate(xs) && !HasDuplicate(slots) {
      var i, j :| 0 <= i < j < |xs| && xs[i].date == xs[j].date && xs[i].time == xs[j].time;
      assert j == n;
      assert xs[i] == slots[i];
      assert RowOf(watcherId, s) == RowOf(watcherId, slots[i]);
    }
    if HasDuplicate(slots) {
      var i, j :| 0 <= i < j < |slots| && slots[i].date == slots[j].date && slots[i].time == slots[j].time;
      assert xs[i] == slots[i] && xs[j] == slots[j];
    }
    if RowOf(watcherId, s) in Rows(watcherId, slots) {
      var t :| t in slots && RowOf(watcherId, t) == RowOf(watcherId, s);
      var i :| 0 <= i < n && slots[i] == t;
      assert xs[i] == t && xs[n] == s;
      assert xs[i].date == xs[n].date && xs[i].time == xs[n].time;
    }
  }
}
