/**
 * What a check cycle promises about the notified-slot table: which slots count as new, what
 * is stored afterwards, that a second cycle over the same calendar is quiet, that a failed
 * notification is retried, and what a duplicated new slot does to the cycle as written.
 */
module ReconcileProperties {
  import opened Wrappers
  import opened SlotParser
  import opened WeekOffsets
  import opened Notify
  import opened Reconcile

  // ----- new slots -----

  /** A new slot is a gathered slot without a row; every gathered slot without a row is new
      (as written literally, corrected up to its date and time); the corrected selection
      never lists a date and time twice. */
  lemma {:induction false} NewSlotsSpec(all: seq<Slot>, rows: set<NotifiedRow>, wid: int, policy: Policy)
    ensures var r := NewSlots(all, rows, wid, policy);
      (forall s :: s in r ==> s in all && RowOf(wid, s) !in rows) &&
      (forall s :: s in all && RowOf(wid, s) !in rows ==> RowOf(wid, s) in Rows(wid, r)) &&
      (policy == AsWritten ==> forall s :: s in all && RowOf(wid, s) !in rows ==> s in r) &&
      (policy == Corrected ==> !HasDuplicate(r))
    decreases |all|
  {
    if all != [] {
      var init := all[..|all| - 1];
      var s := all[|all| - 1];
      assert all == init + [s];
      NewSlotsSpec(init, rows, wid, policy);
      var prev := NewSlots(init, rows, wid, policy);
      RowsSnoc(wid, prev, s);
      DuplicateSnoc(wid, prev, s);
    }
  }

  /** As written, a slot gathered twice and not yet recorded is selected twice. */
  lemma {:induction false} AsWrittenKeepsDuplicates(all: seq<Slot>, rows: set<NotifiedRow>, wid: int, i: nat, j: nat)
    requires i < j < |all| && all[i].date == all[j].date && all[i].time == all[j].time
    requires RowOf(wid, all[i]) !in rows
    ensures HasDuplicate(NewSlots(all, rows, wid, AsWritten))
    decreases |all|
  {
    var init := all[..|all| - 1];
    var s := all[|all| - 1];
    var prev := NewSlots(init, rows, wid, AsWritten);
    DuplicateSnoc(wid, prev, s);
    if j == |all| - 1 {
      NewSlotsSpec(init, rows, wid, AsWritten);
      assert all[i] == init[i];
      assert all[i] in prev;
      assert RowOf(wid, s) == RowOf(wid, all[i]);
    } else {
      assert init[i] == all[i] && init[j] == all[j];
      AsWrittenKeepsDuplicates(init, rows, wid, i, j);
    }
  }

  /** When every gathered slot has its row, nothing is new. */
  lemma {:induction false} NothingNewWhenRecorded(all: seq<Slot>, rows: set<NotifiedRow>, wid: int, policy: Policy)
    requires forall s :: s in all ==> RowOf(wid, s) in rows
    ensures NewSlots(all, rows, wid, policy) == []
    decreases |all|
  {
    if all != [] {
      var init := all[..|all| - 1];
      assert forall s :: s in init ==> s in all;
      NothingNewWhenRecorded(init, rows, wid, policy);
      assert all[|all| - 1] in all;
    }
  }

  /** The selection depends on the table only through the rows of the gathered slots. */
  lemma {:induction false} NewSlotsCongruent(all: seq<Slot>, rows1: set<NotifiedRow>, rows2: set<NotifiedRow>, wid: int, policy: Policy)
    requires forall s :: s in all ==> (RowOf(wid, s) in rows1 <==> RowOf(wid, s) in rows2)
    ensures NewSlots(all, rows1, wid, policy) == NewSlots(all, rows2, wid, policy)
    decreases |all|
  {
    if all != [] {
      var init := all[..|all| - 1];
      assert forall s :: s in init ==> s in all;
      NewSlotsCongruent(init, rows1, rows2, wid, policy);
      assert all[|all| - 1] in all;
    }
  }

  // ----- gathered slots -----

  /** Every gathered slot is on a target date and well formed. */
  lemma {:induction false} GatherSpec(w: Watcher, weeks: seq<int>, fetch: (string, string, int) -> Option<Page>)
    ensures forall s :: s in Gather(w, weeks, fetch) ==> s.date in w.targetDates && WellFormedSlot(s)
    decreases |weeks|
  {
    if weeks != [] {
      GatherSpec(w, weeks[..|weeks| - 1], fetch);
      var page := fetch(w.doctorCode, w.doctorUrl, weeks[|weeks| - 1]);
      if page.Some? && page.value.text != "" {
        var ps := PageSlots(page.value);
        ColumnsSlotsSpec(page.value.dayColumns);
        forall s | s in ps ensures WellFormedSlot(s) {
          var k :| 0 <= k < |ps| && ps[k] == s;
        }
      }
    }
  }

  /** The gathered slots depend on the watcher only through its target dates, doctor code and
      doctor URL (the `Referer` of each calendar request). */
  lemma {:induction false} GatherFields(w1: Watcher, w2: Watcher, weeks: seq<int>, fetch: (string, string, int) -> Option<Page>)
    requires w1.targetDates == w2.targetDates && w1.doctorCode == w2.doctorCode && w1.doctorUrl == w2.doctorUrl
    ensures Gather(w1, weeks, fetch) == Gather(w2, weeks, fetch)
    decreases |weeks|
  {
    if weeks != [] {
      GatherFields(w1, w2, weeks[..|weeks| - 1], fetch);
    }
  }

  // ----- availability keys -----

  /** Within an availability key, the first underscore is the one after the date when the
      date has none. */
  lemma KeySeparator(d: string, t: string)
    requires '_' !in d
    ensures Key(d, t)[|d|] == '_'
    ensures forall i :: 0 <= i < |d| ==> Key(d, t)[i] != '_'
  {
    var k := Key(d, t);
    forall i | 0 <= i < |d| ensures k[i] != '_' {
      assert k[i] == d[i] && d[i] in d;
    }
  }

  /** For dates without an underscore, the availability key determines date and time. */
  lemma KeyInjective(d1: string, t1: string, d2: string, t2: string)
    requires '_' !in d1 && '_' !in d2
    ensures Key(d1, t1) == Key(d2, t2) <==> d1 == d2 && t1 == t2
  {
    KeySeparator(d1, t1);
    KeySeparator(d2, t2);
    if Key(d1, t1) == Key(d2, t2) {
      var k := Key(d1, t1);
      assert |d1| == |d2|;
      assert d1 == k[..|d1|] && d2 == k[..|d2|];
      assert t1 == k[|d1| + 1..] && t2 == k[|d2| + 1..];
    }
  }

  // ----- one cycle -----

  /** The cycle is skipped exactly for a missing or inactive watcher or when no target date is
      today or later; a skipped or failed cycle changes nothing; a request is attempted only
      about new slots; and the notification counts as delivered exactly when there are new
      slots, the transport accepts the message and, for e-mail, Mailjet is configured. */
  lemma CycleOutcomes(db: DbState, id: int, env: Environment, policy: Policy)
    ensures var r := CheckWatcher(db, id, env, policy);
      (r.outcome == Skipped <==>
        (id !in db.watchers || !db.watchers[id].isActive ||
         WeekOffsetsOf(db.watchers[id].targetDates, env.today, Origin(policy, env.today), env.parseDate) == Some([]))) &&
      (r.outcome != Completed ==> r.after == db) &&
      (r.attempted.Some? ==> r.newSlots != []) &&
      (r.delivered ==> r.attempted.Some?) &&
      (r.delivered <==>
        (id in db.watchers && r.newSlots != [] && env.transportOk &&
         (db.watchers[id].notificationType == "email" ==> ValidateMailjetConfig(env.mailjet))))
  {
  }

  /** A cycle touches only its own watcher: other watchers and their rows stay as they were,
      and a completed cycle changes its watcher only by stamping the check time. */
  lemma CycleFrame(db: DbState, id: int, env: Environment, policy: Policy)
    ensures var r := CheckWatcher(db, id, env, policy);
      r.after.watchers.Keys == db.watchers.Keys &&
      (forall k :: k in db.watchers && k != id ==> r.after.watchers[k] == db.watchers[k]) &&
      (forall row: NotifiedRow :: row.watcherId != id ==> (row in r.after.notified <==> row in db.notified)) &&
      (r.outcome == Completed ==>
        (id in db.watchers && r.after.watchers[id] == db.watchers[id].(lastCheckAt := Some(env.now))))
  {
  }

  /** After a completed cycle the watcher's rows are those whose slot is still offered and
      that were recorded before or belong to a gathered slot and the notification went out. */
  lemma CycleStore(db: DbState, id: int, env: Environment, policy: Policy, weeks: seq<int>)
    requires id in db.watchers && db.watchers[id].isActive
    requires WeekOffsetsOf(db.watchers[id].targetDates, env.today, Origin(policy, env.today), env.parseDate) == Some(weeks)
    requires CheckWatcher(db, id, env, policy).outcome == Completed
    ensures var r := CheckWatcher(db, id, env, policy);
      var all := Gather(db.watchers[id], weeks, env.fetch);
      forall row: NotifiedRow :: row.watcherId == id ==>
        (row in r.after.notified <==>
          Key(row.date, row.time) in Keys(all) && (row in db.notified || (r.delivered && row in Rows(id, all))))
  {
    var r := CheckWatcher(db, id, env, policy);
    var w := db.watchers[id];
    var all := Gather(w, weeks, env.fetch);
    var ns := NewSlots(all, db.notified, id, policy);
    NewSlotsSpec(all, db.notified, id, policy);
    assert r.newSlots == ns;
    forall row | row in Rows(id, all) && row !in db.notified ensures row in Rows(id, ns) {
      var s :| s in all && RowOf(id, s) == row;
    }
    forall row | row in Rows(id, ns) ensures row in Rows(id, all) {
      var s :| s in ns && RowOf(id, s) == row;
    }
  }

  /** When the dates involved have no underscore, a cycle that delivered its notification, or
      found nothing new, leaves the watcher with exactly one row per slot on offer. */
  lemma CycleRecordsOffered(db: DbState, id: int, env: Environment, policy: Policy, weeks: seq<int>)
    requires id in db.watchers && db.watchers[id].isActive
    requires WeekOffsetsOf(db.watchers[id].targetDates, env.today, Origin(policy, env.today), env.parseDate) == Some(weeks)
    requires CheckWatcher(db, id, env, policy).outcome == Completed
    requires CheckWatcher(db, id, env, policy).delivered || CheckWatcher(db, id, env, policy).newSlots == []
    requires forall d :: d in db.watchers[id].targetDates ==> '_' !in d
    requires forall row :: row in db.notified && row.watcherId == id ==> '_' !in row.date
    ensures RowsOfWatcher(CheckWatcher(db, id, env, policy).after.notified, id) ==
      Rows(id, Gather(db.watchers[id], weeks, env.fetch))
  {
    var r := CheckWatcher(db, id, env, policy);
    var w := db.watchers[id];
    var all := Gather(w, weeks, env.fetch);
    CycleStore(db, id, env, policy, weeks);
    GatherSpec(w, weeks, env.fetch);
    NewSlotsSpec(all, db.notified, id, policy);
    forall row | row in RowsOfWatcher(r.after.notified, id) ensures row in Rows(id, all) {
      var s :| s in all && Key(s.date, s.time) == Key(row.date, row.time);
      if row in db.notified {
        KeyInjective(row.date, row.time, s.date, s.time);
        assert row == RowOf(id, s);
      }
    }
    forall row | row in Rows(id, all) ensures row in RowsOfWatcher(r.after.notified, id) {
      var s :| s in all && RowOf(id, s) == row;
      assert Key(row.date, row.time) in Keys(all);
    }
  }

  // ----- the next cycle -----

  /** Once a cycle delivered its notification, or found nothing new, the next cycle over the
      same calendar finds nothing new, attempts nothing and keeps the table as it is. */
  lemma SecondCycleQuiet(db: DbState, id: int, env: Environment, policy: Policy, env2: Environment)
    requires CheckWatcher(db, id, env, policy).outcome == Completed
    requires CheckWatcher(db, id, env, policy).delivered || CheckWatcher(db, id, env, policy).newSlots == []
    requires env2.today == env.today && env2.parseDate == env.parseDate && env2.fetch == env.fetch
    ensures var r := CheckWatcher(db, id, env, policy);
      var r2 := CheckWatcher(r.after, id, env2, policy);
      r2.outcome == Completed && r2.newSlots == [] && r2.attempted == None && !r2.delivered &&
      r2.after.notified == r.after.notified
  {
    var r := CheckWatcher(db, id, env, policy);
    var w := db.watchers[id];
    var weeks := WeekOffsetsOf(w.targetDates, env.today, Origin(policy, env.today), env.parseDate).value;
    CycleStore(db, id, env, policy, weeks);
    var all := Gather(w, weeks, env.fetch);
    var w1 := r.after.watchers[id];
    assert w1 == w.(lastCheckAt := Some(env.now));
    GatherFields(w, w1, weeks, env.fetch);
    NewSlotsSpec(all, db.notified, id, policy);
    forall s | s in all ensures RowOf(id, s) in r.after.notified {
      assert Key(s.date, s.time) in Keys(all);
      assert RowOf(id, s) in Rows(id, all);
    }
    var ns2 := NewSlots(all, r.after.notified, id, policy);
    NothingNewWhenRecorded(all, r.after.notified, id, policy);
    assert Prune(r.after.notified, id, Keys(all)) == r.after.notified;
  }

  /** A notification that did not go out is retried: the next cycle over the same calendar
      selects the same new slots and, with the same Mailjet settings, attempts the same request. */
  lemma FailedSendRetried(db: DbState, id: int, env: Environment, policy: Policy, env2: Environment)
    requires CheckWatcher(db, id, env, policy).outcome == Completed
    requires !CheckWatcher(db, id, env, policy).delivered
    requires env2.today == env.today && env2.parseDate == env.parseDate && env2.fetch == env.fetch
    ensures var r := CheckWatcher(db, id, env, policy);
      var r2 := CheckWatcher(r.after, id, env2, policy);
      r2.newSlots == r.newSlots &&
      (env2.mailjet == env.mailjet ==> r2.attempted == r.attempted)
  {
    var r := CheckWatcher(db, id, env, policy);
    var w := db.watchers[id];
    var weeks := WeekOffsetsOf(w.targetDates, env.today, Origin(policy, env.today), env.parseDate).value;
    var all := Gather(w, weeks, env.fetch);
    var w1 := r.after.watchers[id];
    assert w1 == w.(lastCheckAt := Some(env.now));
    GatherFields(w, w1, weeks, env.fetch);
    forall s | s in all ensures RowOf(id, s) in r.after.notified <==> RowOf(id, s) in db.notified {
      assert Key(s.date, s.time) in Keys(all);
    }
    NewSlotsCongruent(all, r.after.notified, db.notified, id, policy);
    if env2.mailjet == env.mailjet && r.newSlots != [] {
      DispatchIgnoresCheckTime(w, r.newSlots, env, Some(env.now), env2);
    }
  }

  /** The request a cycle attempts does not depend on the watcher's check time, the clock or
      the transport's answer. */
  lemma DispatchIgnoresCheckTime(w: Watcher, slots: seq<Slot>, env: Environment, t: Option<int>, env2: Environment)
    requires env2.mailjet == env.mailjet
    ensures Dispatch(w.(lastCheckAt := t), slots, env2).attempted == Dispatch(w, slots, env).attempted
  {
  }

  // ----- a duplicated new slot -----

  /** As written, when the calendar offers the same unrecorded slot twice and the notification
      goes out, the commit fails: nothing is recorded, so the next cycle sends the same
      notification again, and so on for as long as the calendar stays the same. */
  lemma DuplicateResentAsWritten(db: DbState, id: int, env: Environment, weeks: seq<int>, i: nat, j: nat)
    requires id in db.watchers && db.watchers[id].isActive
    requires WeekOffsetsOf(db.watchers[id].targetDates, env.today, env.today, env.parseDate) == Some(weeks) && weeks != []
    requires i < j < |Gather(db.watchers[id], weeks, env.fetch)|
    requires Gather(db.watchers[id], weeks, env.fetch)[i] == Gather(db.watchers[id], weeks, env.fetch)[j]
    requires RowOf(id, Gather(db.watchers[id], weeks, env.fetch)[i]) !in db.notified
    requires env.transportOk && (db.watchers[id].notificationType == "email" ==> ValidateMailjetConfig(env.mailjet))
    ensures var r := CheckWatcher(db, id, env, AsWritten);
      r.outcome == Failed && r.delivered && r.attempted.Some? && r.after == db &&
      CheckWatcher(r.after, id, env, AsWritten) == r
  {
    var all := Gather(db.watchers[id], weeks, env.fetch);
    AsWrittenKeepsDuplicates(all, db.notified, id, i, j);
    var ns := NewSlots(all, db.notified, id, AsWritten);
    assert ns != [];
  }

  /** Corrected, a cycle fails only on a target date that does not parse, and a delivered
      notification is always recorded: every new slot it reported has its row afterwards. */
  lemma CorrectedRecordsDelivered(db: DbState, id: int, env: Environment)
    ensures var r := CheckWatcher(db, id, env, Corrected);
      (r.outcome == Failed ==>
        (id in db.watchers &&
         WeekOffsetsOf(db.watchers[id].targetDates, env.today, MondayOf(env.today), env.parseDate).None?)) &&
      (r.delivered ==> r.outcome == Completed && forall s :: s in r.newSlots ==> RowOf(id, s) in r.after.notified)
  {
    var r := CheckWatcher(db, id, env, Corrected);
    if id in db.watchers && db.watchers[id].isActive {
      var w := db.watchers[id];
      var wo := WeekOffsetsOf(w.targetDates, env.today, MondayOf(env.today), env.parseDate);
      if wo.Some? && wo.value != [] {
        var all := Gather(w, wo.value, env.fetch);
        NewSlotsSpec(all, db.notified, id, Corrected);
        forall s | s in r.newSlots ensures Key(s.date, s.time) in Keys(all) {
        }
      }
    }
  }
}
