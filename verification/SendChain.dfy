/** One WhatsApp session's outbound side: the serialised, rate-limited sends, the
    ids they leave behind, and the recovery from undecryptable messages
    (gateway/src/session.js). */
module SendChain {
  import opened Wrappers
  import opened OrderedDict
  import opened Intervals

  const SEND_MIN_GAP_MS: int := 1000
  const SENT_ID_CAP: nat := 200
  const SENT_MSG_CAP: nat := 500

  // --- the chain -------------------------------------------------------------------

  /** The job at the head of the chain: sleeping off its gap, or being sent. */
  datatype Slot = Free | Delayed(job: nat, until: int) | Flying(job: nat)

  datatype Started = Started(job: nat, time: int)
  datatype Settled = Settled(time: int, ok: bool)

  datatype Promise = Resolved | Rejected

  /** `run.catch(() => {})`. */
  function Caught(run: Promise): Promise {
    match run
    case Resolved => Resolved
    case Rejected => Resolved
  }

  datatype Chain = Chain(
    now: int,
    jobs: nat,                 // enqueued so far
    pending: seq<nat>,
    slot: Slot,
    tail: Promise,             // what the next job is chained to
    lastSentAt: int,
    started: seq<Started>,
    settled: seq<Settled>)

  datatype Op = Enqueue | Begin | Wake | Settle(ok: bool) | Pass(ms: nat)

  function Applied(c: Chain, op: Op): Chain {
    match op
    case Enqueue => c.(jobs := c.jobs + 1, pending := c.pending + [c.jobs])
    case Begin =>
      if !c.slot.Free? || c.pending == [] || c.tail.Rejected? then c
      else
        var job := c.pending[0];
        var wait := if c.lastSentAt + SEND_MIN_GAP_MS > c.now then c.lastSentAt + SEND_MIN_GAP_MS - c.now else 0;
        if wait > 0 then c.(pending := c.pending[1..], slot := Delayed(job, c.now + wait))
        else c.(pending := c.pending[1..], slot := Flying(job), started := c.started + [Started(job, c.now)])
    case Wake =>
      if !c.slot.Delayed? || c.now < c.slot.until then c
      else c.(slot := Flying(c.slot.job), started := c.started + [Started(c.slot.job, c.now)])
    case Settle(ok) =>
      if !c.slot.Flying? then c
      else c.(slot := Free, tail := Caught(if ok then Resolved else Rejected), lastSentAt := c.now,
              settled := c.settled + [Settled(c.now, ok)])
    case Pass(ms) => c.(now := c.now + ms)
  }

  function Opened(now: int): Chain { Chain(now, 0, [], Free, Resolved, 0, [], []) }

  function Run(now: int, ops: seq<Op>): Chain {
    if ops == [] then Opened(now) else Applied(Run(now, ops[..|ops| - 1]), ops[|ops| - 1])
  }

  class Sender {
    var now: int
    var jobs: nat
    var pending: seq<nat>
    var slot: Slot
    var sendChain: Promise
    var lastSentAt: int
    var started: seq<Started>
    var settled: seq<Settled>

    ghost function Contents(): Chain
      reads this
    {
      Chain(now, jobs, pending, slot, sendChain, lastSentAt, started, settled)
    }

    constructor (now: int)
      ensures Contents() == Opened(now)
    {
      this.now, jobs, pending, slot, sendChain := now, 0, [], Free, Resolved;
      lastSentAt, started, settled := 0, [], [];
    }

    method EnqueueSend() returns (job: nat)
      modifies this
      ensures Contents() == Applied(old(Contents()), Enqueue) && job == old(jobs)
    {
      job := jobs;
      jobs := jobs + 1;
      pending := pending + [job];
    }

    /** The chain reaches the next job. */
    method BeginNext()
      modifies this
      ensures Contents() == Applied(old(Contents()), Begin)
    {
      if !slot.Free? || pending == [] || sendChain.Rejected? { return; }
      var job := pending[0];
      pending := pending[1..];
      var left := lastSentAt + SEND_MIN_GAP_MS - now;
      var wait := if left > 0 then left else 0;
      if wait > 0 {
        slot := Delayed(job, now + wait);
      } else {
        Send(job);
      }
    }

    method Send(job: nat)
      modifies this`slot, this`started
      ensures slot == Flying(job) && started == old(started) + [Started(job, now)]
    {
      slot := Flying(job);
      started := started + [Started(job, now)];
    }

    /** The gap timer rings. */
    method WakeUp()
      modifies this
      ensures Contents() == Applied(old(Contents()), Wake)
    {
      if slot.Delayed? && now >= slot.until {
        Send(slot.job);
      }
    }

    /** A send resolves or rejects; either way the chain goes on. */
    method SettleSend(ok: bool)
      modifies this
      ensures Contents() == Applied(old(Contents()), Settle(ok))
    {
      if !slot.Flying? { return; }
      lastSentAt := now;
      settled := settled + [Settled(now, ok)];
      slot := Free;
      var run := if ok then Resolved else Rejected;
      sendChain := Caught(run);
    }

    method PassTime(ms: nat)
      modifies this
      ensures Contents() == Applied(old(Contents()), Pass(ms))
    {
      now := now + ms;
    }

    /** A whole run, from a new session. */
    method Execute(ops: seq<Op>)
      requires Contents() == Opened(now)
      modifies this
      ensures Contents() == Run(old(now), ops)
    {
      hide Applied;
      for k := 0 to |ops|
        invariant Contents() == Run(old(now), ops[..k])
      {
        assert ops[..k + 1][..k] == ops[..k];
        match ops[k] {
          case Enqueue =>
            var job := EnqueueSend();
          case Begin => BeginNext();
          case Wake => WakeUp();
          case Settle(ok) => SettleSend(ok);
          case Pass(ms) => PassTime(ms);
        }
      }
      assert ops[..|ops|] == ops;
    }
  }

  ghost predicate InOrder(c: Chain) {
    && (forall k :: 0 <= k < |c.started| ==> c.started[k].job == k)
    && |c.settled| == (if c.slot.Flying? then |c.started| - 1 else |c.started|)
    && (c.slot.Flying? ==> |c.started| >= 1 && c.slot.job == |c.started| - 1)
    && (c.slot.Delayed? ==> c.slot.job == |c.started|)
    && var next := if c.slot.Delayed? then |c.started| + 1 else |c.started|;
       c.jobs == next + |c.pending| && forall i :: 0 <= i < |c.pending| ==> c.pending[i] == next + i
  }

  /** Every send is a second clear of the settling before it. */
  ghost predicate Gaps(started: seq<Started>, settled: seq<Settled>)
    requires |started| <= |settled| + 1
  {
    forall k :: 0 < k < |started| ==> settled[k - 1].time + SEND_MIN_GAP_MS <= started[k].time
  }

  ghost predicate OnTime(c: Chain) {
    && |c.settled| <= |c.started| <= |c.settled| + 1
    && (c.slot.Flying? <==> |c.started| == |c.settled| + 1)
    && (forall k :: 0 <= k < |c.settled| ==> c.started[k].time <= c.settled[k].time)
    && (|c.started| > 0 ==> c.started[|c.started| - 1].time <= c.now)
    && Gaps(c.started, c.settled)
    && (c.settled != [] ==> c.lastSentAt == c.settled[|c.settled| - 1].time)
    && (c.slot.Delayed? && c.settled != [] ==> c.lastSentAt + SEND_MIN_GAP_MS <= c.slot.until)
  }

  lemma GapsGrow(started: seq<Started>, settled: seq<Settled>, next: Started)
    requires |started| == |settled| && Gaps(started, settled)
    requires settled != [] ==> settled[|settled| - 1].time + SEND_MIN_GAP_MS <= next.time
    ensures Gaps(started + [next], settled)
  {
  }

  lemma ApplyKeepsOrder(c: Chain, op: Op)
    requires InOrder(c)
    ensures InOrder(Applied(c, op))
  {
  }

  lemma ApplyKeepsTime(c: Chain, op: Op)
    requires OnTime(c)
    ensures OnTime(Applied(c, op))
  {
    hide Gaps;
    var c' := Applied(c, op);
    if |c'.started| > |c.started| {
      assert c'.started == c.started + [c'.started[|c.started|]];
      GapsGrow(c.started, c.settled, c'.started[|c.started|]);
    } else if |c'.settled| > |c.settled| {
      GapsSettle(c.started, c.settled, c'.settled[|c.settled|]);
    }
  }

  lemma GapsSettle(started: seq<Started>, settled: seq<Settled>, last: Settled)
    requires |started| == |settled| + 1 && Gaps(started, settled)
    ensures Gaps(started, settled + [last])
  {
  }

  lemma {:induction false} RunKeeps(now: int, ops: seq<Op>)
    ensures InOrder(Run(now, ops)) && OnTime(Run(now, ops))
  {
    hide InOrder, OnTime;
    if ops != [] {
      RunKeeps(now, ops[..|ops| - 1]);
      ApplyKeepsOrder(Run(now, ops[..|ops| - 1]), ops[|ops| - 1]);
      ApplyKeepsTime(Run(now, ops[..|ops| - 1]), ops[|ops| - 1]);
    } else {
      Fresh(now);
    }
  }

  lemma Fresh(now: int)
    ensures InOrder(Opened(now)) && OnTime(Opened(now))
  {
  }

  /** Sends start in the order they were enqueued, one at a time, each at least a
      second after the one before it settled. */
  lemma SendsRunInOrder(now: int, ops: seq<Op>, k: nat)
    requires k < |Run(now, ops).started|
    ensures
      var c := Run(now, ops);
      && c.started[k].job == k
      && (k > 0 ==> k - 1 < |c.settled| && c.started[k - 1].time <= c.settled[k - 1].time
                    && c.settled[k - 1].time + 1000 <= c.started[k].time)
  {
    RunKeeps(now, ops);
  }

  /** Nothing enqueued is lost or repeated: the jobs are the started ones, the one
      sleeping off its gap, and the pending ones, in this order. */
  lemma EveryJobIsKept(now: int, ops: seq<Op>, job: nat)
    requires job < Run(now, ops).jobs
    ensures
      var c := Run(now, ops);
      if job < |c.started| then c.started[job].job == job
      else if c.slot.Delayed? && job == |c.started| then c.slot.job == job
      else job in c.pending
  {
    RunKeeps(now, ops);
    var c := Run(now, ops);
    var next := if c.slot.Delayed? then |c.started| + 1 else |c.started|;
    if job >= next { assert c.pending[job - next] == job; }
  }

  /** When the send before the next one settled; time zero before the first. */
  ghost function LastSettled(c: Chain): int {
    if c.settled == [] then 0 else c.settled[|c.settled| - 1].time
  }

  ghost predicate SleepsExactly(c: Chain) {
    c.lastSentAt == LastSettled(c) && (c.slot.Delayed? ==> c.slot.until == LastSettled(c) + 1000)
  }

  lemma {:induction false} GapsAreExact(now: int, ops: seq<Op>)
    ensures SleepsExactly(Run(now, ops)) && Run(now, ops).tail.Resolved?
  {
    if ops != [] { GapsAreExact(now, ops[..|ops| - 1]); }
  }

  /** In every run, when the chain reaches the next job it starts it at once if the send
      before settled a second ago or more, and otherwise sleeps to exactly that second. */
  lemma NextStartsExactlyWhen(now: int, ops: seq<Op>)
    requires Run(now, ops).slot.Free? && Run(now, ops).pending != []
    ensures
      var (c, c') := (Run(now, ops), Run(now, ops + [Begin]));
      var job := |c.started|;
      if c.now >= LastSettled(c) + 1000
      then c'.slot == Flying(job) && c'.started == c.started + [Started(job, c.now)]
      else c'.slot == Delayed(job, LastSettled(c) + 1000) && c'.started == c.started
  {
    assert (ops + [Begin])[..|ops|] == ops;
    GapsAreExact(now, ops);
    RunKeeps(now, ops);
  }

  ghost function StartTimes(started: seq<Started>): seq<int> {
    seq(|started|, i requires 0 <= i < |started| => started[i].time)
  }

  lemma {:induction false} StartsAreSpaced(now: int, ops: seq<Op>, i: nat, j: nat)
    requires i <= j < |Run(now, ops).started|
    ensures Run(now, ops).started[j].time >= Run(now, ops).started[i].time + SEND_MIN_GAP_MS * (j - i)
    decreases j
  {
    if i < j {
      StartsAreSpaced(now, ops, i, j - 1);
      SendsRunInOrder(now, ops, j);
    }
  }

  /** Any window of `width` milliseconds holds at most width/1000 + 1 sends. */
  lemma SendRateIsBounded(now: int, ops: seq<Op>, from: int, width: nat)
    ensures |Hits(StartTimes(Run(now, ops).started), from, width)| <= width / 1000 + 1
  {
    var times := StartTimes(Run(now, ops).started);
    var size := width / SEND_MIN_GAP_MS + 1;
    forall i, j | 0 <= i < j < |times| ensures times[i] <= times[j] { StartsAreSpaced(now, ops, i, j); }
    forall i | 0 <= i < |times| - size ensures times[i + size] > times[i] + width {
      StartsAreSpaced(now, ops, i, i + size);
    }
    FewInAnyInterval(times, from, width, size);
  }

  /** The run with every send succeeding. */
  function AllGood(ops: seq<Op>): seq<Op> {
    if ops == [] then []
    else AllGood(ops[..|ops| - 1]) + [if ops[|ops| - 1].Settle? then Settle(true) else ops[|ops| - 1]]
  }

  /** A send that fails changes nothing for the sends after it: the chain they hang
      on never rejects. */
  lemma {:induction false} FailuresDoNotDelay(now: int, ops: seq<Op>)
    ensures Run(now, AllGood(ops)).(settled := []) == Run(now, ops).(settled := [])
    ensures Run(now, AllGood(ops)).started == Run(now, ops).started && Run(now, ops).tail.Resolved?
  {
    if ops != [] {
      FailuresDoNotDelay(now, ops[..|ops| - 1]);
      assert AllGood(ops)[..|AllGood(ops)| - 1] == AllGood(ops[..|ops| - 1]);
    }
  }

  // --- the loop guard -------------------------------------------------------------------

  /** The ids and the contents of our own messages, in insertion order. */
  datatype Sent = Sent(ids: seq<string>, messages: Dict<string>)

  /** A JavaScript set: adding a member it has changes nothing; past the cap the
      oldest member goes. */
  function IdAdded(ids: seq<string>, id: string): seq<string> {
    if id == "" || id in ids then ids
    else if |ids| + 1 > SENT_ID_CAP then (ids + [id])[1..]
    else ids + [id]
  }

  function MessagePut(messages: Dict<string>, id: string, message: Option<string>): Dict<string> {
    if id == "" || message.None? then messages
    else
      var put := Put(messages, id, message.value);
      if |put| > SENT_MSG_CAP then put[1..] else put
  }

  class SentLog {
    var ids: seq<string>
    var messages: Dict<string>

    ghost function Contents(): Sent
      reads this
    {
      Sent(ids, messages)
    }

    ghost predicate Valid()
      reads this
    {
      |ids| <= SENT_ID_CAP
    }

    constructor ()
      ensures Valid() && Contents() == Sent([], [])
    {
      ids, messages := [], [];
    }

    method RememberSentMessage(id: string, message: Option<string>)
      requires Valid()
      modifies this
      ensures Valid() && Contents() == Sent(IdAdded(old(ids), id), MessagePut(old(messages), id, message))
    {
      if id == "" { return; }
      if id !in ids { ids := ids + [id]; }
      if |ids| > SENT_ID_CAP { ids := ids[1..]; }
      if message.Some? {
        messages := Put(messages, id, message.value);
        if |messages| > SENT_MSG_CAP { messages := messages[1..]; }
      }
    }

    /** A whole run of sends. */
    method Execute(calls: seq<SentCall>)
      requires Contents() == Sent([], [])
      modifies this
      ensures Valid() && Contents() == Sent(Ids(IdsOf(calls)), MessagesOf(calls))
    {
      for k := 0 to |calls|
        invariant Valid() && Contents() == Sent(Ids(IdsOf(calls[..k])), MessagesOf(calls[..k]))
      {
        OneMoreCall(calls, k);
        RememberSentMessage(calls[k].id, calls[k].message);
      }
      assert calls[..|calls|] == calls;
    }
  }

  /** One sent message: its id, and its content if it is to be kept. */
  datatype SentCall = SentCall(id: string, message: Option<string>)

  function IdsOf(calls: seq<SentCall>): seq<string> {
    if calls == [] then [] else IdsOf(calls[..|calls| - 1]) + [calls[|calls| - 1].id]
  }

  function MessagesOf(calls: seq<SentCall>): Dict<string> {
    if calls == [] then []
    else MessagePut(MessagesOf(calls[..|calls| - 1]), calls[|calls| - 1].id, calls[|calls| - 1].message)
  }

  lemma OneMoreCall(calls: seq<SentCall>, k: nat)
    requires k < |calls|
    ensures Ids(IdsOf(calls[..k + 1])) == IdAdded(Ids(IdsOf(calls[..k])), calls[k].id)
    ensures MessagesOf(calls[..k + 1]) == MessagePut(MessagesOf(calls[..k]), calls[k].id, calls[k].message)
  {
    hide IdAdded, MessagePut;
    assert calls[..k + 1][..k] == calls[..k];
    var (before, after) := (IdsOf(calls[..k]), IdsOf(calls[..k + 1]));
    assert after == before + [calls[k].id] && after[..|after| - 1] == before;
  }

  /** Over every run the cache holds one content for an id and at most 500 of them,
      and the last one just stored reads back. */
  lemma {:induction false} CacheStaysBounded(calls: seq<SentCall>)
    ensures Unique(MessagesOf(calls)) && |MessagesOf(calls)| <= 500
    ensures calls != [] && calls[|calls| - 1].id != "" && calls[|calls| - 1].message.Some? ==>
      Get(MessagesOf(calls), calls[|calls| - 1].id) == calls[|calls| - 1].message
  {
    hide Get, Unique, Put;
    if calls == [] {
      NoMessages();
    } else {
      var (front, last) := (calls[..|calls| - 1], calls[|calls| - 1]);
      CacheStaysBounded(front);
      if last.id != "" && last.message.Some? { ContentReadsBack(MessagesOf(front), last.id, last.message.value); }
    }
  }

  lemma NoMessages()
    ensures Unique<string>([])
  {
  }

  /** The guard after a series of sends, and the ids that were new to it. */
  function Ids(calls: seq<string>): seq<string> {
    if calls == [] then [] else IdAdded(Ids(calls[..|calls| - 1]), calls[|calls| - 1])
  }

  function Insertions(calls: seq<string>): seq<string> {
    if calls == [] then []
    else
      var front := calls[..|calls| - 1];
      var id := calls[|calls| - 1];
      if id == "" || id in Ids(front) then Insertions(front) else Insertions(front) + [id]
  }

  function LastOf(ids: seq<string>, n: nat): seq<string> {
    if |ids| > n then ids[|ids| - n..] else ids
  }

  ghost predicate Distinct(ids: seq<string>) { forall i, j :: 0 <= i < j < |ids| ==> ids[i] != ids[j] }

  /** The guard holds exactly the last 200 insertions, each once. */
  lemma {:induction false} GuardIsTheLastInsertions(calls: seq<string>)
    ensures Ids(calls) == LastOf(Insertions(calls), 200) && |Ids(calls)| <= 200
    ensures Distinct(Ids(calls))
  {
    hide IdAdded, LastOf, Distinct;
    if calls != [] {
      var front := calls[..|calls| - 1];
      GuardIsTheLastInsertions(front);
      OneMoreId(Insertions(front), Ids(front), calls[|calls| - 1]);
    } else {
      NoIds();
    }
  }

  lemma NoIds()
    ensures LastOf([], 200) == [] && Distinct([])
  {
  }

  lemma OneMoreId(insertions: seq<string>, ids: seq<string>, id: string)
    requires ids == LastOf(insertions, 200) && Distinct(ids)
    ensures IdAdded(ids, id) == if id == "" || id in ids then ids else LastOf(insertions + [id], 200)
    ensures Distinct(IdAdded(ids, id)) && |IdAdded(ids, id)| <= SENT_ID_CAP
  {
    if id != "" && id !in ids {
      var n := |insertions|;
      if n >= SENT_ID_CAP {
        assert ids == insertions[n - SENT_ID_CAP..];
        assert ids[1..] == insertions[n + 1 - SENT_ID_CAP..];
        assert (insertions + [id])[n + 1 - SENT_ID_CAP..] == insertions[n + 1 - SENT_ID_CAP..] + [id];
        assert (ids + [id])[1..] == ids[1..] + [id];
      }
      DistinctGrows(ids, id);
    }
  }

  lemma DistinctGrows(ids: seq<string>, id: string)
    requires Distinct(ids) && id !in ids
    ensures Distinct(ids + [id]) && Distinct((ids + [id])[1..])
  {
  }

  /** The id is in the guard, with at most `newer` ids after it. */
  ghost predicate StillIn(ids: seq<string>, id: string, newer: nat) {
    exists k :: 0 <= k < |ids| && ids[k] == id && k + newer >= |ids| - 1
  }

  /** A new id is recognised for at least the next 199 sends. */
  lemma {:induction false} EchoIsRecognised(calls: seq<string>, id: string, more: seq<string>)
    requires id != "" && id !in Ids(calls) && |more| < 200
    ensures StillIn(Ids(calls + [id] + more), id, |more|)
    decreases |more|
  {
    hide IdAdded, StillIn;
    GuardIsTheLastInsertions(calls);
    if more == [] {
      assert calls + [id] + more == calls + [id] && (calls + [id])[..|calls|] == calls;
      NewIdIsLast(Ids(calls), id);
    } else {
      var front := more[..|more| - 1];
      EchoIsRecognised(calls, id, front);
      var before := calls + [id] + front;
      assert calls + [id] + more == before + [more[|more| - 1]];
      assert (before + [more[|more| - 1]])[..|before|] == before;
      GuardIsTheLastInsertions(before);
      OneNewer(Ids(before), id, |front|, more[|more| - 1]);
    }
  }

  lemma NewIdIsLast(ids: seq<string>, id: string)
    requires id != "" && id !in ids
    ensures StillIn(IdAdded(ids, id), id, 0)
  {
    var after := IdAdded(ids, id);
    assert after[|after| - 1] == id;
  }

  lemma OneNewer(ids: seq<string>, id: string, newer: nat, next: string)
    requires StillIn(ids, id, newer) && |ids| <= SENT_ID_CAP && newer + 1 < SENT_ID_CAP
    ensures StillIn(IdAdded(ids, next), id, newer + 1)
  {
    var k :| 0 <= k < |ids| && ids[k] == id && k + newer >= |ids| - 1;
    var after := IdAdded(ids, next);
    if after == ids || |ids| < SENT_ID_CAP {
      assert after[k] == id;
    } else {
      assert after[k - 1] == id;
    }
  }

  /** Sending the oldest id again does not refresh it: the next new id drops it. */
  lemma RepeatIsNotRefreshed(calls: seq<string>, next: string)
    requires |Ids(calls)| == 200 && next != "" && next !in Ids(calls)
    ensures Ids(calls)[0] !in Ids(calls + [Ids(calls)[0]] + [next])
  {
    var oldest := Ids(calls)[0];
    GuardIsTheLastInsertions(calls);
    assert (calls + [oldest])[..|calls|] == calls;
    assert (calls + [oldest] + [next])[..|calls + [oldest]|] == calls + [oldest];
    assert Ids(calls + [oldest] + [next]) == Ids(calls)[1..] + [next];
  }

  /** A message just sent can be sent again with the same content. */
  lemma ContentReadsBack(messages: Dict<string>, id: string, message: string)
    requires id != "" && Unique(messages) && |messages| <= SENT_MSG_CAP
    ensures
      var after := MessagePut(messages, id, Some(message));
      Get(after, id) == Some(message) && Unique(after) && |after| <= SENT_MSG_CAP
  {
    PutLands(messages, id, message);
  }

  lemma {:induction false} PutLands(d: Dict<string>, id: string, message: string)
    requires Unique(d)
    ensures var put := Put(d, id, message);
      && Unique(put) && Get(put, id) == Some(message) && Keys(put) == Keys(d) + {id}
      && |d| <= |put| <= |d| + 1
      && (|put| > |d| && d != [] ==> put[0].0 == d[0].0 && put[0].0 != id)
  {
    if d != [] { PutLands(d[1..], id, message); }
  }

  // --- what the cache holds -----------------------------------------------------------------

  /** The ids that were new to the cache, as they came. */
  function Stored(calls: seq<SentCall>): seq<string> {
    if calls == [] then []
    else
      var front := calls[..|calls| - 1];
      var call := calls[|calls| - 1];
      if call.id == "" || call.message.None? || call.id in Keys(MessagesOf(front)) then Stored(front)
      else Stored(front) + [call.id]
  }

  /** The content last given for an id. */
  function LastContent(calls: seq<SentCall>, id: string): Option<string> {
    if calls == [] then None
    else
      var call := calls[|calls| - 1];
      if call.id == id && id != "" && call.message.Some? then call.message else LastContent(calls[..|calls| - 1], id)
  }

  /** The cache holds the last 500 ids that were new to it, each with the content last
      given for it: a repeated id gets its new content, and is not refreshed. */
  lemma {:induction false} CacheIsTheLastInsertions(calls: seq<SentCall>)
    ensures Names(MessagesOf(calls)) == LastOf(Stored(calls), 500)
    ensures forall id ::
      Get(MessagesOf(calls), id) == if id in Names(MessagesOf(calls)) then LastContent(calls, id) else None
  {
    hide MessagePut, Get, Names, LastOf, Keys;
    if calls == [] {
      EmptyCache();
    } else {
      var (front, call) := (calls[..|calls| - 1], calls[|calls| - 1]);
      CacheIsTheLastInsertions(front);
      CacheStaysBounded(front);
      OneMoreStored(MessagesOf(front), Stored(front), call);
      forall id
        ensures Get(MessagesOf(calls), id) == if id in Names(MessagesOf(calls)) then LastContent(calls, id) else None
      {
        OneMoreContent(MessagesOf(front), call, id);
      }
    }
  }

  lemma EmptyCache()
    ensures Names<string>([]) == LastOf([], 500) && forall id: string :: Get<string>([], id) == None
  {
  }

  lemma {:induction false} NamesAsMany<V>(d: Dict<V>)
    ensures |Names(d)| == |d|
    ensures d != [] ==> Names(d)[1..] == Names(d[1..])
  {
    if d != [] { NamesAsMany(d[1..]); }
  }

  lemma OneMoreStored(messages: Dict<string>, stored: seq<string>, call: SentCall)
    requires Unique(messages) && |messages| <= 500 && Names(messages) == LastOf(stored, 500)
    ensures Names(MessagePut(messages, call.id, call.message)) ==
      if call.id == "" || call.message.None? || call.id in Keys(messages) then Names(messages)
      else LastOf(stored + [call.id], 500)
  {
    hide Put, Keys, Names, Unique;
    if call.id != "" && call.message.Some? {
      var put := Put(messages, call.id, call.message.value);
      PutKeepsOrder(messages, call.id, call.message.value);
      NamesAsMany(put);
      NamesAsMany(messages);
      if call.id !in Keys(messages) { LastOneMore(stored, call.id); }
    }
  }

  lemma LastOneMore(stored: seq<string>, id: string)
    ensures LastOf(stored + [id], 500) ==
      if |LastOf(stored, 500)| < 500 then LastOf(stored, 500) + [id] else (LastOf(stored, 500) + [id])[1..]
  {
    var n := |stored|;
    if n >= 500 {
      assert LastOf(stored, 500) == stored[n - 500..];
      assert (stored + [id])[n - 499..] == stored[n - 499..] + [id];
      assert stored[n - 500..][1..] == stored[n - 499..];
    }
  }

  lemma TailGet(d: Dict<string>, id: string)
    requires Unique(d) && d != []
    ensures Get(d[1..], id) == if id == d[0].0 then None else Get(d, id)
  {
    KeysAreKeys(d[1..], id);
  }

  lemma OneMoreContent(messages: Dict<string>, call: SentCall, id: string)
    requires Unique(messages) && |messages| <= 500
    ensures id in Names(messages) <==> Get(messages, id).Some?
    ensures var after := MessagePut(messages, call.id, call.message);
      && (id in Names(after) <==> Get(after, id).Some?)
      && Get(after, id) ==
        if id !in Names(after) then None
        else if call.id == id && id != "" && call.message.Some? then call.message
        else Get(messages, id)
  {
    hide Put, Keys, Get, Names, Unique;
    var after := MessagePut(messages, call.id, call.message);
    KeysAreKeys(messages, id);
    NamesAreKeys(messages, id);
    KeysAreKeys(after, id);
    NamesAreKeys(after, id);
    if call.id != "" && call.message.Some? {
      PutLaws(messages, call.id, call.message.value, id);
      var put := Put(messages, call.id, call.message.value);
      if |put| > 500 { TailGet(put, id); }
    }
  }
}
