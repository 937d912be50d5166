/** The public booking limiter: a fixed-window counter per page and client
    (backend/app/api/public_booking.py). */
module RateLimiter {
  import opened Wrappers
  import opened ChatKeys
  import opened Intervals

  const RATE_LIMIT_MAX: nat := 8
  const RATE_LIMIT_WINDOW_SECONDS: int := 60 * 10

  datatype Counter = Counter(count: nat, deadline: Option<int>)

  function BucketKey(slug: string, ip: string): string { "ratelimit:book:" + slug + ":" + ip }

  /** Booking page slugs hold no colon, so each page and client has its own bucket. */
  lemma BucketsAreApart(slug: string, ip: string, slug': string, ip': string)
    requires ColonFree(slug) && ColonFree(slug')
    ensures BucketKey(slug, ip) == BucketKey(slug', ip') <==> slug == slug' && ip == ip'
  {
    if BucketKey(slug, ip) == BucketKey(slug', ip') {
      var prefix := |"ratelimit:book:"|;
      assert BucketKey(slug, ip)[prefix..] == slug + ":" + ip;
      assert BucketKey(slug', ip')[prefix..] == slug' + ":" + ip';
      HeadsAgree(slug, ip, slug', ip');
    }
  }

  // --- the counters ----------------------------------------------------------------

  datatype Buckets = Buckets(now: int, counters: map<string, Counter>)

  predicate Live(now: int, c: Counter) { c.deadline.None? || now < c.deadline.value }

  function Passed(b: Buckets, seconds: nat): Buckets {
    Buckets(b.now + seconds, map k | k in b.counters && Live(b.now + seconds, b.counters[k]) :: b.counters[k])
  }

  /** One attempt: the counter after it, and whether it is let through. */
  function Attempted(b: Buckets, key: string): (Buckets, bool) {
    var count := if key in b.counters then b.counters[key].count + 1 else 1;
    var deadline :=
      if count == 1 then Some(b.now + RATE_LIMIT_WINDOW_SECONDS)
      else if key in b.counters then b.counters[key].deadline else None;
    (b.(counters := b.counters[key := Counter(count, deadline)]), count <= RATE_LIMIT_MAX)
  }

  class Limiter {
    var now: int
    var counters: map<string, Counter>

    constructor ()
      ensures Contents() == Buckets(0, map[])
    {
      now, counters := 0, map[];
    }

    ghost function Contents(): Buckets
      reads this
    {
      Buckets(now, counters)
    }

    /** INCR: a missing key starts at 0; an expiry is kept. */
    method Incr(key: string) returns (count: nat)
      modifies this`counters
      ensures count == if key in old(counters) then old(counters)[key].count + 1 else 1
      ensures counters == old(counters)[key :=
        Counter(count, if key in old(counters) then old(counters)[key].deadline else None)]
    {
      var before := if key in counters then counters[key] else Counter(0, None);
      count := before.count + 1;
      counters := counters[key := Counter(count, before.deadline)];
    }

    method Expire(key: string, seconds: int)
      requires key in counters
      modifies this`counters
      ensures counters == old(counters)[key := old(counters)[key].(deadline := Some(now + seconds))]
    {
      counters := counters[key := counters[key].(deadline := Some(now + seconds))];
    }

    method CheckRateLimit(slug: string, ip: string) returns (admitted: bool)
      modifies this`counters
      ensures (Contents(), admitted) == Attempted(old(Contents()), BucketKey(slug, ip))
    {
      admitted := CheckBucket(BucketKey(slug, ip));
    }

    method CheckBucket(key: string) returns (admitted: bool)
      modifies this`counters
      ensures (Contents(), admitted) == Attempted(old(Contents()), key)
      ensures now == old(now)
    {
      var count := Incr(key);
      if count == 1 {
        Expire(key, RATE_LIMIT_WINDOW_SECONDS);
      }
      assert counters == Attempted(old(Contents()), key).0.counters;
      admitted := count <= RATE_LIMIT_MAX;
    }

    method PassTime(seconds: nat)
      modifies this
      ensures Contents() == Passed(old(Contents()), seconds)
    {
      now := now + seconds;
      counters := map k | k in counters && Live(now, counters[k]) :: counters[k];
    }

    /** A whole run, from the beginning, with the times at which one bucket was let
        through. */
    method Execute(ops: seq<Op>, bucket: string) returns (times: seq<int>)
      requires Contents() == Buckets(0, map[])
      modifies this
      ensures Contents() == Run(ops) && times == Admissions(ops, bucket)
    {
      hide Attempted, Passed;
      times := [];
      for k := 0 to |ops|
        invariant Contents() == Run(ops[..k]) && times == Admissions(ops[..k], bucket)
      {
        assert ops[..k + 1][..k] == ops[..k];
        match ops[k] {
          case Attempt(key) =>
            var admitted := CheckBucket(key);
            if admitted && key == bucket { times := times + [now]; }
          case Wait(seconds) => PassTime(seconds);
        }
      }
      assert ops[..|ops|] == ops;
    }
  }

  // --- runs ---------------------------------------------------------------------------

  datatype Op = Attempt(key: string) | Wait(seconds: nat)

  function Applied(b: Buckets, op: Op): Buckets {
    match op
    case Attempt(key) => Attempted(b, key).0
    case Wait(seconds) => Passed(b, seconds)
  }

  function Run(ops: seq<Op>): Buckets {
    if ops == [] then Buckets(0, map[]) else Applied(Run(ops[..|ops| - 1]), ops[|ops| - 1])
  }

  /** The instants at which a run lets an attempt on `key` through. */
  function Admissions(ops: seq<Op>, key: string): seq<int> {
    if ops == [] then []
    else
      var front := ops[..|ops| - 1];
      var last := ops[|ops| - 1];
      if last == Attempt(key) && Attempted(Run(front), key).1 then Admissions(front, key) + [Run(front).now]
      else Admissions(front, key)
  }

  /** `starts[i]` is the start of the window in which admission `i` fell: windows
      last 600 s, do not overlap, and none holds more than eight admissions. */
  ghost predicate InWindows(times: seq<int>, starts: seq<int>) {
    && |times| == |starts|
    && (forall i :: 0 <= i < |times| ==> starts[i] <= times[i] < starts[i] + 600)
    && (forall i, j :: 0 <= i < j < |starts| ==>
      starts[i] == starts[j] || starts[i] + 600 <= starts[j])
    && (forall i :: 0 <= i < |starts| - 8 ==>
      starts[i] + 600 <= starts[i + 8])
    && Sorted(times)
  }

  /** A live counter has a window; the window's admissions are the last ones, as
      many as its attempts up to eight; everything else lies in earlier windows. */
  ghost predicate WindowOpen(b: Buckets, key: string, times: seq<int>, starts: seq<int>) {
    && (key !in b.counters ==> forall i :: 0 <= i < |starts| ==> starts[i] + 600 <= b.now)
    && (key in b.counters ==>
          var c := b.counters[key];
          && c.count >= 1 && c.deadline.Some?
          && c.deadline.value - 600 <= b.now < c.deadline.value
          && var k := if c.count <= 8 then c.count else 8;
             k <= |starts|
             && (forall i :: |starts| - k <= i < |starts| ==> starts[i] == c.deadline.value - 600)
             && (forall i :: 0 <= i < |starts| - k ==> starts[i] + 1200 <= c.deadline.value))
    && (forall i :: 0 <= i < |times| ==> times[i] <= b.now)
  }

  /** The starts of those windows. */
  ghost function Starts(ops: seq<Op>, key: string): seq<int> {
    if ops == [] then []
    else
      var front := ops[..|ops| - 1];
      var last := ops[|ops| - 1];
      if last == Attempt(key) && Attempted(Run(front), key).1 then
        Starts(front, key) + [WindowStart(Run(front), key)]
      else Starts(front, key)
  }

  function WindowStart(b: Buckets, key: string): int {
    Attempted(b, key).0.counters[key].deadline.GetOr(0) - 600
  }

  /** An admitted attempt falls in a new window or is one more, at most the
      eighth, of the last one. */
  lemma AdmissionFits(b: Buckets, key: string, times: seq<int>, starts: seq<int>)
    requires InWindows(times, starts) && WindowOpen(b, key, times, starts) && Attempted(b, key).1
    ensures WindowStart(b, key) <= b.now < WindowStart(b, key) + 600
    ensures forall i :: 0 <= i < |starts| ==>
      starts[i] == WindowStart(b, key) || starts[i] + 600 <= WindowStart(b, key)
    ensures |starts| >= 8 ==>
      starts[|starts| - 8] + 600 <= WindowStart(b, key)
    ensures forall i :: 0 <= i < |times| ==> times[i] <= b.now
  {
  }

  lemma WindowsGrow(times: seq<int>, starts: seq<int>, now: int, start: int)
    requires InWindows(times, starts) && start <= now < start + 600
    requires forall i :: 0 <= i < |starts| ==> starts[i] == start || starts[i] + 600 <= start
    requires |starts| >= 8 ==> starts[|starts| - 8] + 600 <= start
    requires forall i :: 0 <= i < |times| ==> times[i] <= now
    ensures InWindows(times + [now], starts + [start])
  {
    var starts' := starts + [start];
    forall i | 0 <= i < |starts'| - 8
      ensures starts'[i] + 600 <= starts'[i + 8]
    {
      assert i + 8 < |starts| ==> starts[i] + 600 <= starts[i + 8];
    }
  }

  lemma AdmissionStaysOpen(b: Buckets, key: string, times: seq<int>, starts: seq<int>)
    requires |times| == |starts| && WindowOpen(b, key, times, starts) && Attempted(b, key).1
    ensures WindowOpen(Attempted(b, key).0, key, times + [b.now], starts + [WindowStart(b, key)])
  {
  }

  lemma ApplyKeepsWindows(b: Buckets, key: string, times: seq<int>, starts: seq<int>, op: Op)
    requires InWindows(times, starts) && WindowOpen(b, key, times, starts)
    requires !(op == Attempt(key) && Attempted(b, key).1)
    ensures WindowOpen(Applied(b, op), key, times, starts)
  {
  }

  lemma {:induction false} AdmissionsFillWindows(ops: seq<Op>, key: string)
    ensures InWindows(Admissions(ops, key), Starts(ops, key))
    ensures WindowOpen(Run(ops), key, Admissions(ops, key), Starts(ops, key))
  {
    hide InWindows, WindowOpen, Attempted, WindowStart;
    if ops != [] {
      var (front, last) := (ops[..|ops| - 1], ops[|ops| - 1]);
      AdmissionsFillWindows(front, key);
      if last == Attempt(key) && Attempted(Run(front), key).1 {
        AdmissionFits(Run(front), key, Admissions(front, key), Starts(front, key));
        WindowsGrow(Admissions(front, key), Starts(front, key), Run(front).now, WindowStart(Run(front), key));
        AdmissionStaysOpen(Run(front), key, Admissions(front, key), Starts(front, key));
      } else {
        ApplyKeepsWindows(Run(front), key, Admissions(front, key), Starts(front, key), last);
      }
    } else {
      NoneYet(key);
    }
  }

  lemma NoneYet(key: string)
    ensures InWindows([], []) && WindowOpen(Buckets(0, map[]), key, [], [])
  {
  }

  /** Of any nine consecutive admissions the last is in a later window than the
      first, so a window admits eight at most; of any seventeen the last comes
      more than 600 seconds after the first. */
  lemma AdmissionsAreSpaced(ops: seq<Op>, key: string, i: nat)
    requires i + 16 < |Admissions(ops, key)|
    ensures Admissions(ops, key)[i + 16] > Admissions(ops, key)[i] + 600
  {
    AdmissionsFillWindows(ops, key);
    var starts := Starts(ops, key);
    assert starts[i] + 600 <= starts[i + 8];
    assert starts[i + 8] + 600 <= starts[i + 8 + 8];
  }

  /** In any closed interval of 600 seconds of any run at most sixteen attempts
      on one bucket are let through. */
  lemma SixteenInAnyInterval(ops: seq<Op>, key: string, from: int)
    ensures |Hits(Admissions(ops, key), from, 600)| <= 16
  {
    var times := Admissions(ops, key);
    AdmissionsFillWindows(ops, key);
    forall i | 0 <= i < |times| - 16
      ensures times[i + 16] > times[i] + 600
    {
      AdmissionsAreSpaced(ops, key, i);
    }
    FewInAnyInterval(times, from, 600, 16);
  }

  /** An attempt is turned away exactly when its window, which opened less than
      600 seconds ago, has already let eight through; an attempt after a pause of
      600 seconds is always let through. */
  lemma RefusedOnlyWhenFull(ops: seq<Op>, key: string)
    ensures
      var times := Admissions(ops, key);
      |Starts(ops, key)| == |times| &&
      (!Attempted(Run(ops), key).1 <==>
        key in Run(ops).counters && |times| >= 8 &&
        Starts(ops, key)[|times| - 8] ==
          Run(ops).counters[key].deadline.GetOr(0) - 600)
    ensures
      var times := Admissions(ops, key);
      !Attempted(Run(ops), key).1 ==>
        |times| >= 8 && times[|times| - 8] > Run(ops).now - 600
    ensures Attempted(Passed(Run(ops), 600), key).1
  {
    AdmissionsFillWindows(ops, key);
  }
}
