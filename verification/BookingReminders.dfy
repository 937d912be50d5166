/** Booking messages: an outbox per business, guarded by expiring markers
    (backend/app/services/booking_reminders.py). */
module BookingReminders {
  const DAY_BEFORE_HOURS: int := 24
  const MARKER_TTL_SECONDS: int := 7 * 24 * 60 * 60
  const HOUR: int := 60 * 60

  /** One kind of message about one booking. */
  datatype Touch = Touch(booking: string, kind: string)
  datatype Entry = Entry(touch: Touch, scheduledAt: int)

  /** A row of the due-bookings read. */
  datatype Due = Due(business: string, booking: string, scheduledAt: int, isTest: bool)

  datatype Queued = Queued(time: int, business: string, entry: Entry)

  /** The clock, the live markers, and every entry queued so far. */
  datatype Desk = Desk(now: int, markers: map<Touch, int>, log: seq<Queued>)

  function Touched(d: Desk, business: string, entry: Entry): Desk {
    if entry.touch in d.markers then d
    else d.(markers := d.markers[entry.touch := d.now + MARKER_TTL_SECONDS],
            log := d.log + [Queued(d.now, business, entry)])
  }

  function Confirmation(row: Due): Entry { Entry(Touch(row.booking, "confirmation"), row.scheduledAt) }
  function Reminder(row: Due): Entry { Entry(Touch(row.booking, "reminder"), row.scheduledAt) }

  function RowDone(d: Desk, row: Due): Desk {
    if row.isTest then d
    else
      var confirmed := Touched(d, row.business, Confirmation(row));
      if row.scheduledAt - d.now <= DAY_BEFORE_HOURS * HOUR
      then Touched(confirmed, row.business, Reminder(row))
      else confirmed
  }

  function Swept(d: Desk, rows: seq<Due>): Desk {
    if rows == [] then d else RowDone(Swept(d, rows[..|rows| - 1]), rows[|rows| - 1])
  }

  function Passed(d: Desk, seconds: nat): Desk {
    Desk(d.now + seconds, map t | t in d.markers && d.now + seconds < d.markers[t] :: d.markers[t], d.log)
  }

  /** What a business' queue holds. */
  function QueueOf(log: seq<Queued>, business: string): seq<Entry> {
    if log == [] then []
    else
      QueueOf(log[..|log| - 1], business) +
      (if log[|log| - 1].business == business then [log[|log| - 1].entry] else [])
  }

  /** Each business' list is its own queuings in order. */
  ghost predicate QueuesHold(outboxes: map<string, seq<Entry>>, log: seq<Queued>) {
    forall b :: (if b in outboxes then outboxes[b] else []) == QueueOf(log, b)
  }

  lemma QueuesGrow(outboxes: map<string, seq<Entry>>, log: seq<Queued>, q: Queued)
    requires QueuesHold(outboxes, log)
    ensures
      var queue := if q.business in outboxes then outboxes[q.business] else [];
      QueuesHold(outboxes[q.business := queue + [q.entry]], log + [q])
  {
    assert (log + [q])[..|log|] == log;
  }

  class Reminders {
    var now: int
    var markers: map<Touch, int>
    var outboxes: map<string, seq<Entry>>
    ghost var log: seq<Queued>

    ghost function Contents(): Desk
      reads this
    {
      Desk(now, markers, log)
    }

    ghost predicate Valid()
      reads this
    {
      QueuesHold(outboxes, log)
    }

    constructor ()
      ensures Valid() && Contents() == Desk(0, map[], [])
    {
      now, markers, outboxes, log := 0, map[], map[], [];
    }

    /** `SET key 1 NX EX ttl`. */
    method SetIfAbsent(touch: Touch) returns (isNew: bool)
      modifies this`markers
      ensures isNew == (touch !in old(markers))
      ensures markers == if isNew then old(markers)[touch := now + MARKER_TTL_SECONDS] else old(markers)
    {
      isNew := touch !in markers;
      if isNew { markers := markers[touch := now + MARKER_TTL_SECONDS]; }
    }

    method QueueTouch(business: string, booking: string, kind: string, scheduledAt: int) returns (queued: bool)
      requires Valid()
      modifies this
      ensures Valid() && Contents() == Touched(old(Contents()), business, Entry(Touch(booking, kind), scheduledAt))
      ensures queued == (Touch(booking, kind) !in old(markers))
    {
      hide QueuesHold;
      var entry := Entry(Touch(booking, kind), scheduledAt);
      queued := SetIfAbsent(entry.touch);
      if !queued { return; }
      outboxes := outboxes[business := (if business in outboxes then outboxes[business] else []) + [entry]];
      QueuesGrow(old(outboxes), log, Queued(now, business, entry));
      log := log + [Queued(now, business, entry)];
    }

    /** The owner's one-off message. */
    method QueueBookingMessage(business: string, booking: string, kind: string, scheduledAt: int) returns (queued: bool)
      requires Valid()
      modifies this
      ensures Valid() && Contents() == Touched(old(Contents()), business, Entry(Touch(booking, kind), scheduledAt))
      ensures queued == (Touch(booking, kind) !in old(markers))
    {
      queued := QueueTouch(business, booking, kind, scheduledAt);
    }

    /** One pass over the due bookings. */
    method RunSweepOnce(rows: seq<Due>) returns (queued: nat)
      requires Valid()
      modifies this
      ensures Valid() && Contents() == Swept(old(Contents()), rows)
      ensures queued == |log| - |old(log)|
    {
      queued := 0;
      for k := 0 to |rows|
        invariant Valid() && Contents() == Swept(old(Contents()), rows[..k])
        invariant now == old(now) && queued == |log| - |old(log)|
      {
        assert rows[..k + 1][..k] == rows[..k];
        var row := rows[k];
        if !row.isTest {
          var confirmed := QueueTouch(row.business, row.booking, "confirmation", row.scheduledAt);
          if confirmed { queued := queued + 1; }
          if row.scheduledAt - now <= DAY_BEFORE_HOURS * HOUR {
            var reminded := QueueTouch(row.business, row.booking, "reminder", row.scheduledAt);
            if reminded { queued := queued + 1; }
          }
        }
      }
      assert rows[..|rows|] == rows;
    }

    method PassTime(seconds: nat)
      requires Valid()
      modifies this
      ensures Valid() && Contents() == Passed(old(Contents()), seconds)
    {
      now := now + seconds;
      markers := map t | t in markers && now < markers[t] :: markers[t];
    }

    /** A whole run, from the beginning. */
    method Execute(ops: seq<Op>)
      requires Valid() && Contents() == START
      modifies this
      ensures Valid() && Contents() == Run(ops)
    {
      for k := 0 to |ops|
        invariant Valid() && Contents() == Run(ops[..k])
      {
        assert ops[..k + 1][..k] == ops[..k];
        match ops[k] {
          case Sweep(rows) =>
            var queued := RunSweepOnce(rows);
          case Message(business, booking, kind, scheduledAt) =>
            var queued := QueueBookingMessage(business, booking, kind, scheduledAt);
          case Wait(seconds) => PassTime(seconds);
        }
      }
      assert ops[..|ops|] == ops;
    }
  }

  // --- runs -------------------------------------------------------------------------

  datatype Op =
    | Sweep(rows: seq<Due>)
    | Message(business: string, booking: string, kind: string, scheduledAt: int)
    | Wait(seconds: nat)

  function Applied(d: Desk, op: Op): Desk {
    match op
    case Sweep(rows) => Swept(d, rows)
    case Message(business, booking, kind, scheduledAt) => Touched(d, business, Entry(Touch(booking, kind), scheduledAt))
    case Wait(seconds) => Passed(d, seconds)
  }

  const START := Desk(0, map[], [])

  function Run(ops: seq<Op>): Desk {
    if ops == [] then START else Applied(Run(ops[..|ops| - 1]), ops[|ops| - 1])
  }

  /** Two queuings of one touch are at least a week apart. */
  ghost predicate Spaced(log: seq<Queued>) {
    forall i, j :: 0 <= i < j < |log| && log[i].entry.touch == log[j].entry.touch ==>
      log[i].time + 604800 <= log[j].time
  }

  /** This touch was queued within the last week. */
  ghost predicate Recently(d: Desk, touch: Touch) {
    exists i :: 0 <= i < |d.log| && d.log[i].entry.touch == touch && d.now < d.log[i].time + 604800
  }

  /** A marker is there exactly for a week after its touch was queued. */
  ghost predicate Marked(d: Desk) {
    && Spaced(d.log)
    && (forall i :: 0 <= i < |d.log| ==> d.log[i].time <= d.now)
    && (forall i :: 0 <= i < |d.log| && d.now < d.log[i].time + 604800 ==>
          d.log[i].entry.touch in d.markers && d.markers[d.log[i].entry.touch] == d.log[i].time + 604800)
    && (forall t :: t in d.markers ==> Recently(d, t))
  }

  lemma TouchKeepsMarks(d: Desk, business: string, entry: Entry)
    requires Marked(d)
    ensures Marked(Touched(d, business, entry))
  {
    hide Recently;
    var d' := Touched(d, business, entry);
    if entry.touch !in d.markers {
      var q := Queued(d.now, business, entry);
      assert d'.log == d.log + [q];
      forall i | 0 <= i < |d.log| && d.log[i].entry.touch == entry.touch
        ensures d.log[i].time + 604800 <= q.time
      {
      }
    }
    forall t | t in d'.markers ensures Recently(d', t) { StillRecent(d, business, entry, t); }
  }

  lemma StillRecent(d: Desk, business: string, entry: Entry, t: Touch)
    ensures Recently(d, t) || (t == entry.touch && t !in d.markers) ==> Recently(Touched(d, business, entry), t)
  {
    var d' := Touched(d, business, entry);
    if Recently(d, t) {
      var i :| 0 <= i < |d.log| && d.log[i].entry.touch == t && d.now < d.log[i].time + 604800;
      assert d'.log[i] == d.log[i];
    } else if t == entry.touch && t !in d.markers {
      assert d'.log[|d.log|].entry.touch == t;
    }
  }

  lemma PassKeepsMarks(d: Desk, seconds: nat)
    requires Marked(d)
    ensures Marked(Passed(d, seconds))
  {
    var d' := Passed(d, seconds);
    forall t | t in d'.markers ensures Recently(d', t) {
      var i :| 0 <= i < |d.log| && d.log[i].entry.touch == t && d.now < d.log[i].time + 604800;
      assert d'.log[i] == d.log[i];
    }
  }

  lemma {:induction false} SweepKeepsMarks(d: Desk, rows: seq<Due>)
    requires Marked(d)
    ensures Marked(Swept(d, rows)) && Swept(d, rows).now == d.now
  {
    hide Marked;
    if rows != [] {
      var (front, row) := (rows[..|rows| - 1], rows[|rows| - 1]);
      SweepKeepsMarks(d, front);
      TouchKeepsMarks(Swept(d, front), row.business, Confirmation(row));
      TouchKeepsMarks(Touched(Swept(d, front), row.business, Confirmation(row)), row.business, Reminder(row));
    }
  }

  lemma {:induction false} RunKeepsMarks(ops: seq<Op>)
    ensures Marked(Run(ops))
  {
    hide Marked;
    if ops != [] {
      var (front, op) := (ops[..|ops| - 1], ops[|ops| - 1]);
      RunKeepsMarks(front);
      match op
      case Sweep(rows) => SweepKeepsMarks(Run(front), rows);
      case Message(b, id, kind, at) => TouchKeepsMarks(Run(front), b, Entry(Touch(id, kind), at));
      case Wait(seconds) => PassKeepsMarks(Run(front), seconds);
    } else {
      assert Marked(START) by { NothingMarked(); }
    }
  }

  lemma NothingMarked()
    ensures Marked(START)
  {
  }

  /** A message is queued exactly when it was not queued within the last seven
      days: two queuings of one kind for one booking are at least a week apart. */
  lemma QueuedUnlessRecent(ops: seq<Op>, business: string, entry: Entry)
    ensures |Touched(Run(ops), business, entry).log| > |Run(ops).log| <==> !Recently(Run(ops), entry.touch)
    ensures Spaced(Run(ops).log)
  {
    RunKeepsMarks(ops);
    var d := Run(ops);
    if Recently(d, entry.touch) {
      var i :| 0 <= i < |d.log| && d.log[i].entry.touch == entry.touch && d.now < d.log[i].time + 604800;
      assert entry.touch in d.markers;
    }
  }

  /** Approving a booking again does send twice once a week has passed. */
  lemma ReapprovalAfterAWeekSendsAgain(business: string, booking: string, scheduledAt: int)
    ensures
      var approve := Message(business, booking, "approved", scheduledAt);
      QueueOf(Run([approve, Wait(604800), approve]).log, business)
        == [Entry(Touch(booking, "approved"), scheduledAt), Entry(Touch(booking, "approved"), scheduledAt)]
  {
    var approve := Message(business, booking, "approved", scheduledAt);
    var entry := Entry(Touch(booking, "approved"), scheduledAt);
    var ops := [approve, Wait(604800), approve];
    assert ops[..2] == [approve, Wait(604800)] && ops[..2][..1] == [approve] && ops[..2][..1][..0] == [];
    assert Run(ops[..2][..1]) == Desk(0, map[entry.touch := 604800], [Queued(0, business, entry)]);
    assert Run(ops[..2]) == Passed(Run(ops[..2][..1]), 604800);
    assert Run(ops[..2]).markers == map[];
    var log := Run(ops).log;
    assert log == [Queued(0, business, entry), Queued(604800, business, entry)];
    assert log[..1] == [Queued(0, business, entry)] && log[..1][..0] == [];
    assert QueueOf(log[..1], business) == [entry];
  }

  // --- the passes -----------------------------------------------------------------------

  /** The due-bookings read returns only bookings that start in the next 48 hours. */
  ghost predicate Upcoming(d: Desk, rows: seq<Due>) {
    forall i :: 0 <= i < |rows| ==> d.now <= rows[i].scheduledAt <= d.now + 172800
  }

  /** A pass read upcoming bookings; a one-off message is of another kind. */
  ghost predicate Allowed(d: Desk, op: Op) {
    match op
    case Sweep(rows) => Upcoming(d, rows)
    case Message(_, _, kind, _) => kind != "confirmation" && kind != "reminder"
    case Wait(_) => true
  }

  ghost predicate Faithful(ops: seq<Op>) {
    ops == [] || (Faithful(ops[..|ops| - 1]) && Allowed(Run(ops[..|ops| - 1]), ops[|ops| - 1]))
  }

  /** The pass kinds were queued inside their windows. */
  ghost predicate InTime(q: Queued) {
    && (q.entry.touch.kind == "confirmation" || q.entry.touch.kind == "reminder" ==>
          q.time <= q.entry.scheduledAt <= q.time + 172800)
    && (q.entry.touch.kind == "reminder" ==> q.entry.scheduledAt <= q.time + 86400)
  }

  ghost predicate AllInTime(log: seq<Queued>) { forall i :: 0 <= i < |log| ==> InTime(log[i]) }

  lemma {:induction false} SweepIsInTime(d: Desk, rows: seq<Due>)
    requires AllInTime(d.log) && Upcoming(d, rows)
    ensures AllInTime(Swept(d, rows).log) && Swept(d, rows).now == d.now
  {
    if rows != [] {
      SweepIsInTime(d, rows[..|rows| - 1]);
    }
  }

  /** No reminder is queued more than 24 hours ahead of its appointment, none
      after it, and no confirmation more than 48 hours ahead. */
  lemma {:induction false} PassesAreInTime(ops: seq<Op>)
    requires Faithful(ops)
    ensures AllInTime(Run(ops).log)
  {
    if ops != [] {
      var front := ops[..|ops| - 1];
      PassesAreInTime(front);
      if ops[|ops| - 1].Sweep? { SweepIsInTime(Run(front), ops[|ops| - 1].rows); }
    }
  }

  /** Two queuings of one kind for one booking by the passes are for different
      appointment times: while a booking is not moved, each kind is queued at
      most once, over all passes. */
  lemma OncePerAppointment(ops: seq<Op>, i: nat, j: nat)
    requires Faithful(ops) && i < |Run(ops).log| && j < |Run(ops).log|
    ensures
      var (a, b) := (Run(ops).log[i].entry, Run(ops).log[j].entry);
      a == b && (a.touch.kind == "confirmation" || a.touch.kind == "reminder") ==> i == j
  {
    RunKeepsMarks(ops);
    PassesAreInTime(ops);
    assert InTime(Run(ops).log[i]) && InTime(Run(ops).log[j]);
  }

  /** After a pass every booking it read has its confirmation queued within the
      last week, and its reminder too if it starts within 24 hours. */
  lemma {:induction false} PassMissesNobody(d: Desk, rows: seq<Due>, k: nat)
    requires Marked(d) && k < |rows| && !rows[k].isTest
    ensures Recently(Swept(d, rows), Touch(rows[k].booking, "confirmation"))
    ensures rows[k].scheduledAt - d.now <= 86400 ==> Recently(Swept(d, rows), Touch(rows[k].booking, "reminder"))
  {
    hide Marked, Recently, Touched;
    var (front, row) := (rows[..|rows| - 1], rows[|rows| - 1]);
    var before := Swept(d, front);
    SweepKeepsMarks(d, front);
    var confirmed := Touched(before, row.business, Confirmation(row));
    TouchKeepsMarks(before, row.business, Confirmation(row));
    TouchIsRecent(before, row.business, Confirmation(row), Confirmation(rows[k]).touch);
    TouchIsRecent(before, row.business, Confirmation(row), Reminder(rows[k]).touch);
    TouchIsRecent(confirmed, row.business, Reminder(row), Confirmation(rows[k]).touch);
    TouchIsRecent(confirmed, row.business, Reminder(row), Reminder(rows[k]).touch);
    if k < |front| { PassMissesNobody(d, front, k); }
  }

  lemma TouchIsRecent(d: Desk, business: string, entry: Entry, touch: Touch)
    requires Marked(d)
    ensures Touched(d, business, entry).now == d.now
    ensures Recently(d, touch) || touch == entry.touch ==> Recently(Touched(d, business, entry), touch)
  {
    StillRecent(d, business, entry, touch);
    assert entry.touch in d.markers ==> Recently(d, entry.touch);
  }

  /** The queued entry is this row's own message. */
  ghost predicate AsksFor(now: int, row: Due, q: Queued) {
    !row.isTest && q.time == now && q.business == row.business &&
    (q.entry == Entry(Touch(row.booking, "confirmation"), row.scheduledAt) ||
     (q.entry == Entry(Touch(row.booking, "reminder"), row.scheduledAt) && row.scheduledAt - now <= 86400))
  }

  /** A pass only adds to the queues, and only messages its rows call for; a test
      booking is never written to. */
  lemma {:induction false} PassQueuesOnlyItsRows(d: Desk, rows: seq<Due>, i: nat)
    requires i < |Swept(d, rows).log|
    ensures Swept(d, rows).now == d.now && |d.log| <= |Swept(d, rows).log|
    ensures i < |d.log| ==> Swept(d, rows).log[i] == d.log[i]
    ensures i >= |d.log| ==> exists k :: 0 <= k < |rows| && AsksFor(d.now, rows[k], Swept(d, rows).log[i])
  {
    if rows != [] {
      var (front, row) := (rows[..|rows| - 1], rows[|rows| - 1]);
      var before := Swept(d, front);
      if i < |before.log| {
        PassQueuesOnlyItsRows(d, front, i);
        if i >= |d.log| {
          var k :| 0 <= k < |front| && AsksFor(d.now, front[k], before.log[i]);
          assert rows[k] == front[k];
        }
      } else {
        NothingLost(d, front);
        assert AsksFor(d.now, row, Swept(d, rows).log[i]);
      }
    }
  }

  lemma {:induction false} NothingLost(d: Desk, rows: seq<Due>)
    ensures Swept(d, rows).now == d.now && |d.log| <= |Swept(d, rows).log|
  {
    if rows != [] { NothingLost(d, rows[..|rows| - 1]); }
  }

  // --- moved bookings -----------------------------------------------------------------

  /** This very entry was queued within the last week. */
  ghost predicate RecentlyAs(d: Desk, entry: Entry) {
    exists i :: 0 <= i < |d.log| && d.log[i].entry == entry && d.now < d.log[i].time + 604800
  }

  /** The same touch was queued within the last week for another time. */
  ghost predicate RecentlyForAnotherTime(d: Desk, entry: Entry) {
    exists i :: 0 <= i < |d.log| && d.log[i].entry.touch == entry.touch && d.log[i].entry != entry
      && d.now < d.log[i].time + 604800
  }

  lemma OtherTouch(d: Desk, business: string, e: Entry, entry: Entry)
    requires e.touch != entry.touch
    ensures RecentlyAs(Touched(d, business, e), entry) <==> RecentlyAs(d, entry)
    ensures RecentlyForAnotherTime(Touched(d, business, e), entry) <==> RecentlyForAnotherTime(d, entry)
  {
    var d' := Touched(d, business, e);
    assert forall i :: 0 <= i < |d.log| ==> d'.log[i] == d.log[i];
  }

  lemma OwnTouch(d: Desk, business: string, entry: Entry)
    requires Marked(d)
    ensures RecentlyAs(Touched(d, business, entry), entry) <==> !RecentlyForAnotherTime(d, entry)
  {
    if entry.touch in d.markers {
      OneOfTwo(d, entry);
    } else {
      assert Touched(d, business, entry).log[|d.log|] == Queued(d.now, business, entry);
      assert !RecentlyForAnotherTime(d, entry);
    }
  }

  /** A live marker stands for one queuing, for this time or for another. */
  lemma OneOfTwo(d: Desk, entry: Entry)
    requires Marked(d) && entry.touch in d.markers
    ensures RecentlyAs(d, entry) <==> !RecentlyForAnotherTime(d, entry)
  {
    assert Recently(d, entry.touch);
    var i :| 0 <= i < |d.log| && d.log[i].entry.touch == entry.touch && d.now < d.log[i].time + 604800;
    forall j | 0 <= j < |d.log| && d.log[j].entry.touch == entry.touch && d.now < d.log[j].time + 604800
      ensures j == i
    {
    }
  }

  /** A row of another booking changes nothing for this one. */
  lemma OtherRow(d: Desk, row: Due, entry: Entry)
    requires row.booking != entry.touch.booking
    ensures RecentlyAs(RowDone(d, row), entry) <==> RecentlyAs(d, entry)
    ensures RecentlyForAnotherTime(RowDone(d, row), entry) <==> RecentlyForAnotherTime(d, entry)
  {
    hide Touched, RecentlyAs, RecentlyForAnotherTime;
    OtherTouch(d, row.business, Confirmation(row), entry);
    OtherTouch(Touched(d, row.business, Confirmation(row)), row.business, Reminder(row), entry);
  }

  lemma {:induction false} OtherRows(d: Desk, rows: seq<Due>, entry: Entry)
    requires forall i :: 0 <= i < |rows| ==> rows[i].booking != entry.touch.booking
    ensures RecentlyAs(Swept(d, rows), entry) <==> RecentlyAs(d, entry)
    ensures RecentlyForAnotherTime(Swept(d, rows), entry) <==> RecentlyForAnotherTime(d, entry)
  {
    hide RecentlyAs, RecentlyForAnotherTime, RowDone;
    if rows != [] {
      OtherRows(d, rows[..|rows| - 1], entry);
      OtherRow(Swept(d, rows[..|rows| - 1]), rows[|rows| - 1], entry);
    }
  }

  lemma OwnRow(d: Desk, row: Due)
    requires Marked(d) && !row.isTest
    ensures RecentlyAs(RowDone(d, row), Confirmation(row)) <==> !RecentlyForAnotherTime(d, Confirmation(row))
    ensures row.scheduledAt - d.now <= 86400 ==>
      (RecentlyAs(RowDone(d, row), Reminder(row)) <==> !RecentlyForAnotherTime(d, Reminder(row)))
  {
    hide Touched, RecentlyAs, RecentlyForAnotherTime, Marked;
    var confirmed := Touched(d, row.business, Confirmation(row));
    OwnTouch(d, row.business, Confirmation(row));
    TouchKeepsMarks(d, row.business, Confirmation(row));
    TouchIsRecent(d, row.business, Confirmation(row), Confirmation(row).touch);
    OtherTouch(confirmed, row.business, Reminder(row), Confirmation(row));
    OtherTouch(d, row.business, Confirmation(row), Reminder(row));
    OwnTouch(confirmed, row.business, Reminder(row));
  }

  /** After a pass that reads each booking once, a booking's confirmation, and its
      reminder if it starts within 24 hours, stand queued for its current time
      exactly when neither was queued for another time in the week before: a
      booking moved within seven days of a message is not written to again. */
  lemma QueuedForTheCurrentTime(d: Desk, rows: seq<Due>, k: nat)
    requires Marked(d) && k < |rows| && !rows[k].isTest
    requires forall i :: 0 <= i < |rows| && i != k ==> rows[i].booking != rows[k].booking
    ensures RecentlyAs(Swept(d, rows), Confirmation(rows[k])) <==> !RecentlyForAnotherTime(d, Confirmation(rows[k]))
    ensures rows[k].scheduledAt - d.now <= 86400 ==>
      (RecentlyAs(Swept(d, rows), Reminder(rows[k])) <==> !RecentlyForAnotherTime(d, Reminder(rows[k])))
    decreases |rows|
  {
    hide RecentlyAs, RecentlyForAnotherTime, RowDone, Marked;
    var front := rows[..|rows| - 1];
    if k == |front| {
      OtherRows(d, front, Confirmation(rows[k]));
      OtherRows(d, front, Reminder(rows[k]));
      SweepKeepsMarks(d, front);
      OwnRow(Swept(d, front), rows[k]);
    } else {
      QueuedForTheCurrentTime(d, front, k);
      OtherRow(Swept(d, front), rows[|front|], Confirmation(rows[k]));
      OtherRow(Swept(d, front), rows[|front|], Reminder(rows[k]));
    }
  }

  /** In a run: a booking that was reminded, then moved, gets no reminder for its
      new time from a pass within the week, whoever else the passes write to. */
  lemma MovedBookingIsNotRemindedAgain(ops: seq<Op>, rows: seq<Due>, k: nat, i: nat)
    requires k < |rows| && !rows[k].isTest && i < |Run(ops).log|
    requires forall j :: 0 <= j < |rows| && j != k ==> rows[j].booking != rows[k].booking
    requires Run(ops).log[i].entry.touch == Reminder(rows[k]).touch
    requires Run(ops).log[i].entry.scheduledAt != rows[k].scheduledAt
    requires Run(ops).now < Run(ops).log[i].time + 604800
    requires rows[k].scheduledAt - Run(ops).now <= 86400
    ensures !RecentlyAs(Run(ops + [Sweep(rows)]), Reminder(rows[k]))
  {
    hide Swept, Marked;
    RunKeepsMarks(ops);
    assert (ops + [Sweep(rows)])[..|ops|] == ops;
    assert RecentlyForAnotherTime(Run(ops), Reminder(rows[k]));
    QueuedForTheCurrentTime(Run(ops), rows, k);
  }

  lemma OneRow(d: Desk, row: Due)
    ensures Swept(d, [row]) == RowDone(d, row)
  {
    assert [row][..0] == [];
  }

  lemma RunOf(ops: seq<Op>, op: Op)
    ensures Run(ops + [op]) == Applied(Run(ops), op)
    ensures Faithful(ops + [op]) <==> Faithful(ops) && Allowed(Run(ops), op)
  {
    assert (ops + [op])[..|ops|] == ops;
  }

  /** A whole run of it: a booking is confirmed and reminded of ten hours ahead, and
      an hour later moved to another ten hours on; the next pass adds nothing, and
      both messages that wait for the customer carry the old time. */
  lemma MovedBookingKeepsItsOldReminder(business: string, booking: string)
    ensures
      var (early, moved) := (Due(business, booking, 10 * HOUR, false), Due(business, booking, 20 * HOUR, false));
      var ops := [Sweep([early]), Wait(HOUR), Sweep([moved])];
      Faithful(ops) && QueueOf(Run(ops).log, business) == [Confirmation(early), Reminder(early)]
  {
    var (early, moved) := (Due(business, booking, 10 * HOUR, false), Due(business, booking, 20 * HOUR, false));
    hide Run, Faithful, RowDone, Passed, QueueOf;
    NothingRun();
    RunOf([], Sweep([early]));
    assert [] + [Sweep([early])] == [Sweep([early])];
    OneRow(START, early);
    var first := FirstPass(early);
    RunOf([Sweep([early])], Wait(HOUR));
    RunOf([Sweep([early])] + [Wait(HOUR)], Sweep([moved]));
    assert [Sweep([early])] + [Wait(HOUR)] + [Sweep([moved])] == [Sweep([early]), Wait(HOUR), Sweep([moved])];
    OneRow(Passed(first, HOUR), moved);
    SecondPass(first, early, moved);
  }

  lemma FirstPass(row: Due) returns (d: Desk)
    requires row.scheduledAt == 10 * HOUR && !row.isTest
    ensures d == RowDone(START, row) && d.now == 0
    ensures Confirmation(row).touch in d.markers && d.markers[Confirmation(row).touch] == 604800
    ensures Reminder(row).touch in d.markers && d.markers[Reminder(row).touch] == 604800
    ensures QueueOf(d.log, row.business) == [Confirmation(row), Reminder(row)]
  {
    d := RowDone(START, row);
    var log := [Queued(0, row.business, Confirmation(row)), Queued(0, row.business, Reminder(row))];
    assert d.log == log;
    assert log[..1][..0] == [] && QueueOf(log[..1], row.business) == [Confirmation(row)];
  }

  lemma SecondPass(d: Desk, early: Due, moved: Due)
    requires moved == early.(scheduledAt := 20 * HOUR) && d.now == 0
    requires Confirmation(early).touch in d.markers && d.markers[Confirmation(early).touch] == 604800
    requires Reminder(early).touch in d.markers && d.markers[Reminder(early).touch] == 604800
    ensures Passed(d, HOUR).now == HOUR && RowDone(Passed(d, HOUR), moved) == Passed(d, HOUR)
    ensures Passed(d, HOUR).log == d.log
  {
  }

  lemma NothingRun()
    ensures Run([]) == START && Faithful([])
  {
  }
}
