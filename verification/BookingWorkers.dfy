/** Reminder passes that overlap: workers that each read the due bookings at some
    instant and queue their messages one by one, later and in any order
    (backend/app/services/booking_reminders.py). */
module BookingWorkers {
  import opened BookingReminders

  /** A message a worker is about to queue: the row it read, when it read it, and
      when it looked at the clock. */
  datatype Pending = Pending(row: Due, readAt: int, checkedAt: int, reminder: bool)

  datatype WorkerOp =
    | Push(pending: Pending)
    | OwnerMessage(business: string, booking: string, kind: string, scheduledAt: int)
    | Idle(seconds: nat)

  function EntryOf(p: Pending): Entry { if p.reminder then Reminder(p.row) else Confirmation(p.row) }

  function Worked(d: Desk, op: WorkerOp): Desk {
    match op
    case Push(p) => Touched(d, p.row.business, EntryOf(p))
    case OwnerMessage(business, booking, kind, scheduledAt) =>
      Touched(d, business, Entry(Touch(booking, kind), scheduledAt))
    case Idle(seconds) => Passed(d, seconds)
  }

  function RunFrom(d: Desk, ops: seq<WorkerOp>): Desk {
    if ops == [] then d else Worked(RunFrom(d, ops[..|ops| - 1]), ops[|ops| - 1])
  }

  /** The row was due when it was read, the clock was looked at after that, and the
      message was called for then. */
  ghost predicate CalledFor(now: int, p: Pending) {
    && !p.row.isTest && p.readAt <= p.checkedAt <= now
    && p.readAt <= p.row.scheduledAt <= p.readAt + 172800
    && (p.reminder ==> p.row.scheduledAt - p.checkedAt <= 86400)
  }

  /** Workers queue what they read; the owner's messages are of other kinds. */
  ghost predicate Working(ops: seq<WorkerOp>) {
    ops == [] ||
    (Working(ops[..|ops| - 1]) &&
     match ops[|ops| - 1]
     case Push(p) => CalledFor(RunFrom(START, ops[..|ops| - 1]).now, p)
     case OwnerMessage(_, _, kind, _) => kind != "confirmation" && kind != "reminder"
     case Idle(_) => true)
  }

  /** A marker lasts five days longer than the look ahead. */
  const MAX_LAG: int := 604800 - 172800

  /** Every message is queued less than `MAX_LAG` after its row was read. */
  ghost predicate Prompt(ops: seq<WorkerOp>) {
    forall i :: 0 <= i < |ops| && ops[i].Push? ==> RunFrom(START, ops[..i]).now - ops[i].pending.readAt < MAX_LAG
  }

  // --- a pass is a worker that is not interrupted --------------------------------------

  function PushesOf(rows: seq<Due>, now: int): seq<WorkerOp> {
    if rows == [] then []
    else
      var row := rows[|rows| - 1];
      PushesOf(rows[..|rows| - 1], now) +
      (if row.isTest then [] else [Push(Pending(row, now, now, false))]) +
      (if row.isTest || row.scheduledAt - now > 86400 then []
       else [Push(Pending(row, now, now, true))])
  }

  lemma OneMore(d: Desk, ops: seq<WorkerOp>, op: WorkerOp)
    ensures RunFrom(d, ops + [op]) == Worked(RunFrom(d, ops), op)
  {
    assert (ops + [op])[..|ops|] == ops;
  }

  lemma {:induction false} PassIsWork(d: Desk, rows: seq<Due>)
    ensures RunFrom(d, PushesOf(rows, d.now)) == Swept(d, rows)
    ensures Upcoming(d, rows) ==>
      forall i :: 0 <= i < |PushesOf(rows, d.now)| ==>
        PushesOf(rows, d.now)[i].Push? && CalledFor(d.now, PushesOf(rows, d.now)[i].pending)
  {
    if Upcoming(d, rows) { PushesAreCalledFor(d, rows); }
    hide Touched, RunFrom, CalledFor;
    if rows == [] {
      NoWork(d);
    } else {
      var (front, row) := (rows[..|rows| - 1], rows[|rows| - 1]);
      var before := PushesOf(front, d.now);
      PassIsWork(d, front);
      NothingLost(d, front);
      var (one, two) := (Push(Pending(row, d.now, d.now, false)), Push(Pending(row, d.now, d.now, true)));
      OneMore(d, before, one);
      OneMore(d, before + [one], two);
      assert before + [] + [] == before && before + [one] + [] == before + [one];
    }
  }

  lemma NoWork(d: Desk)
    ensures RunFrom(d, []) == d
  {
  }

  lemma {:induction false} PushesAreCalledFor(d: Desk, rows: seq<Due>)
    requires Upcoming(d, rows)
    ensures forall i :: 0 <= i < |PushesOf(rows, d.now)| ==>
      PushesOf(rows, d.now)[i].Push? && CalledFor(d.now, PushesOf(rows, d.now)[i].pending)
  {
    if rows != [] { PushesAreCalledFor(d, rows[..|rows| - 1]); }
  }

  // --- every run -------------------------------------------------------------------------

  lemma {:induction false} WorkKeepsMarks(ops: seq<WorkerOp>)
    ensures Marked(RunFrom(START, ops))
  {
    hide Marked;
    if ops == [] {
      NothingMarked();
    } else {
      var before := RunFrom(START, ops[..|ops| - 1]);
      WorkKeepsMarks(ops[..|ops| - 1]);
      match ops[|ops| - 1]
      case Push(p) => TouchKeepsMarks(before, p.row.business, EntryOf(p));
      case OwnerMessage(business, booking, kind, at) =>
        TouchKeepsMarks(before, business, Entry(Touch(booking, kind), at));
      case Idle(seconds) => PassKeepsMarks(before, seconds);
    }
  }

  /** A message of the passes was queued no earlier than its window opens and, by
      prompt workers, less than `MAX_LAG` after its appointment. */
  ghost predicate InWindow(q: Queued, prompt: bool) {
    && (q.entry.touch.kind == "confirmation" || q.entry.touch.kind == "reminder" ==>
          q.entry.scheduledAt <= q.time + 172800 &&
          (prompt ==> q.time < q.entry.scheduledAt + MAX_LAG))
    && (q.entry.touch.kind == "reminder" ==> q.entry.scheduledAt <= q.time + 86400)
  }

  lemma {:induction false} WorkIsInWindow(ops: seq<WorkerOp>, prompt: bool, i: nat)
    requires Working(ops) && (prompt ==> Prompt(ops)) && i < |RunFrom(START, ops).log|
    ensures InWindow(RunFrom(START, ops).log[i], prompt)
  {
    if ops != [] {
      var front := ops[..|ops| - 1];
      if prompt {
        assert forall k :: 0 <= k < |front| ==> front[..k] == ops[..k] && front[k] == ops[k];
      }
      if i < |RunFrom(START, front).log| { WorkIsInWindow(front, prompt, i); }
    }
  }

  /** However the workers interleave, a reminder is never queued more than 24 hours
      ahead, a confirmation never more than 48. */
  lemma NeverEarly(ops: seq<WorkerOp>, i: nat)
    requires Working(ops) && i < |RunFrom(START, ops).log|
    ensures InWindow(RunFrom(START, ops).log[i], false)
  {
    WorkIsInWindow(ops, false, i);
  }

  /** However prompt workers interleave, each kind is queued at most once for an
      appointment of a booking. */
  lemma OncePerAppointmentInterleaved(ops: seq<WorkerOp>, i: nat, j: nat)
    requires Working(ops) && Prompt(ops)
    requires i < |RunFrom(START, ops).log| && j < |RunFrom(START, ops).log|
    ensures
      var (a, b) := (RunFrom(START, ops).log[i].entry, RunFrom(START, ops).log[j].entry);
      a == b && (a.touch.kind == "confirmation" || a.touch.kind == "reminder") ==> i == j
  {
    WorkKeepsMarks(ops);
    WorkIsInWindow(ops, true, i);
    WorkIsInWindow(ops, true, j);
  }

  /** The bound is exact: a worker that takes `MAX_LAG` from its read to its message
      confirms an appointment a second time. */
  lemma SlowWorkerConfirmsAgain(business: string, booking: string)
    ensures
      var row := Due(business, booking, 172800, false);
      var again := Pending(row, 172800, 172800, false);
      var ops := [Push(Pending(row, 0, 0, false)), Idle(604800), Push(again)];
      && Working(ops)
      && RunFrom(START, ops[..2]).now - again.readAt == MAX_LAG
      && RunFrom(START, ops).log ==
           [Queued(0, business, Confirmation(row)), Queued(604800, business, Confirmation(row))]
  {
    var row := Due(business, booking, 172800, false);
    var again := Pending(row, 172800, 172800, false);
    var first := Push(Pending(row, 0, 0, false));
    var ops := [first, Idle(604800), Push(again)];
    assert ops[..2] == [first, Idle(604800)] && ops[..2][..1] == [first] && [first][..0] == [];
    var touch := Confirmation(row).touch;
    assert RunFrom(START, [first])
      == Desk(0, map[touch := 604800], [Queued(0, business, Confirmation(row))]);
    assert RunFrom(START, ops[..2]) == Passed(RunFrom(START, [first]), 604800);
    assert RunFrom(START, ops[..2]).markers == map[];
    assert Working([first]) && Working(ops[..2]);
  }
}
