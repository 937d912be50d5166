/** Reconnecting one session: a single backoff timer, none after a stop
    (gateway/src/session.js). */
module Reconnect {
  import opened Wrappers
  import opened Intervals

  const RECONNECT_BASE_MS: int := 3000
  const RECONNECT_MAX_MS: int := 60000

  function Pow2(n: nat): nat { if n == 0 then 1 else 2 * Pow2(n - 1) }

  function Delay(again: bool, attempts: nat): int {
    if again then RECONNECT_BASE_MS
    else if RECONNECT_BASE_MS * Pow2(attempts) < RECONNECT_MAX_MS then RECONNECT_BASE_MS * Pow2(attempts)
    else RECONNECT_MAX_MS
  }

  /** `armed` maps the timers of the event loop to the instants they are due;
      `starts` are the instants at which a timer started the session. */
  datatype Link = Link(
    now: int,
    stopped: bool,
    attempts: nat,
    timer: Option<nat>,
    armed: map<nat, int>,
    nextTimer: nat,
    starts: seq<int>)

  datatype Op = Connected | Restart(again: bool) | Ring(timer: nat) | Stop | Pass(ms: nat)

  function Applied(l: Link, op: Op): Link {
    match op
    case Connected => l.(attempts := 0)
    case Restart(again) =>
      if l.stopped || l.timer.Some? then l
      else l.(attempts := l.attempts + 1, timer := Some(l.nextTimer), nextTimer := l.nextTimer + 1,
              armed := l.armed[l.nextTimer := l.now + Delay(again, l.attempts)])
    case Ring(timer) =>
      if timer in l.armed && l.armed[timer] <= l.now
      then l.(armed := l.armed - {timer}, timer := None, starts := l.starts + [l.now])
      else l
    case Stop =>
      l.(stopped := true, timer := None, armed := if l.timer.Some? then l.armed - {l.timer.value} else l.armed)
    case Pass(ms) => l.(now := l.now + ms)
  }

  function Created(now: int): Link { Link(now, false, 0, None, map[], 0, []) }

  function Run(now: int, ops: seq<Op>): Link {
    if ops == [] then Created(now) else Applied(Run(now, ops[..|ops| - 1]), ops[|ops| - 1])
  }

  class Session {
    var now: int
    var stopped: bool
    var reconnectAttempts: nat
    var reconnectTimer: Option<nat>
    var armed: map<nat, int>
    var nextTimer: nat
    var starts: seq<int>

    ghost function Contents(): Link
      reads this
    {
      Link(now, stopped, reconnectAttempts, reconnectTimer, armed, nextTimer, starts)
    }

    constructor (now: int)
      ensures Contents() == Created(now)
    {
      this.now, stopped, reconnectAttempts, reconnectTimer := now, false, 0, None;
      armed, nextTimer, starts := map[], 0, [];
    }

    method ConnectionOpened()
      modifies this
      ensures Contents() == Applied(old(Contents()), Connected)
    {
      reconnectAttempts := 0;
    }

    method RestartLater(again: bool)
      modifies this
      ensures Contents() == Applied(old(Contents()), Restart(again))
    {
      if stopped || reconnectTimer.Some? { return; }
      var delay := Delay(again, reconnectAttempts);
      reconnectAttempts := reconnectAttempts + 1;
      reconnectTimer := Some(nextTimer);
      armed := armed[nextTimer := now + delay];
      nextTimer := nextTimer + 1;
    }

    /** The event loop rings a timer that is due. */
    method RingTimer(timer: nat)
      modifies this
      ensures Contents() == Applied(old(Contents()), Ring(timer))
    {
      if timer in armed && armed[timer] <= now {
        armed := armed - {timer};
        reconnectTimer := None;
        starts := starts + [now];
      }
    }

    method StopSession()
      modifies this
      ensures Contents() == Applied(old(Contents()), Stop)
    {
      stopped := true;
      if reconnectTimer.Some? {
        armed := armed - {reconnectTimer.value};
        reconnectTimer := None;
      }
    }

    method PassTime(ms: nat)
      modifies this
      ensures Contents() == Applied(old(Contents()), Pass(ms))
    {
      now := now + ms;
    }

    /** A whole run, from a new session. */
    method Execute(ops: seq<Op>)
      requires Contents() == Created(now)
      modifies this
      ensures Contents() == Run(old(now), ops)
    {
      hide Applied;
      for k := 0 to |ops|
        invariant Contents() == Run(old(now), ops[..k])
      {
        assert ops[..k + 1][..k] == ops[..k];
        match ops[k] {
          case Connected => ConnectionOpened();
          case Restart(again) => RestartLater(again);
          case Ring(timer) => RingTimer(timer);
          case Stop => StopSession();
          case Pass(ms) => PassTime(ms);
        }
      }
      assert ops[..|ops|] == ops;
    }
  }

  ghost predicate Inv(l: Link) {
    && l.armed.Keys == (if l.timer.Some? then {l.timer.value} else {})
    && (l.stopped ==> l.timer.None?)
    && (l.starts != [] ==> l.starts[|l.starts| - 1] <= l.now)
    && (l.starts != [] ==> forall t :: t in l.armed ==> l.starts[|l.starts| - 1] + RECONNECT_BASE_MS <= l.armed[t])
  }

  /** The backoff is 3, 6, 12, 24 and 48 seconds, and 60 seconds from the sixth attempt
      on; a session replaced at once waits 3 seconds. */
  lemma {:induction false} DelayIs(again: bool, attempts: nat)
    ensures Delay(again, attempts) ==
      if again || attempts == 0 then 3000
      else if attempts == 1 then 6000
      else if attempts == 2 then 12000
      else if attempts == 3 then 24000
      else if attempts == 4 then 48000
      else 60000
  {
    if attempts < 5 {
      assert Pow2(1) == 2 && Pow2(2) == 4 && Pow2(3) == 8 && Pow2(4) == 16;
    } else {
      Pow2Least(attempts);
    }
  }

  /** It never shrinks while attempts fail. */
  lemma DelayBounds(again: bool, attempts: nat)
    ensures 3000 <= Delay(again, attempts) <= 60000
    ensures Delay(false, attempts) <= Delay(false, attempts + 1)
  {
    hide Delay;
    DelayIs(again, attempts);
    DelayIs(false, attempts);
    DelayIs(false, attempts + 1);
  }

  lemma {:induction false} Pow2Least(n: nat)
    requires n >= 5
    ensures Pow2(n) >= 32
  {
    if n > 5 { Pow2Least(n - 1); }
  }

  lemma ApplyKeeps(l: Link, op: Op)
    requires Inv(l)
    ensures Inv(Applied(l, op))
  {
    hide Delay;
    if op.Restart? { DelayBounds(op.again, l.attempts); }
  }

  lemma {:induction false} RunKeeps(now: int, ops: seq<Op>)
    ensures Inv(Run(now, ops))
  {
    if ops != [] {
      RunKeeps(now, ops[..|ops| - 1]);
      ApplyKeeps(Run(now, ops[..|ops| - 1]), ops[|ops| - 1]);
    }
  }

  /** However often reconnecting is asked for, at most one timer is armed, and a
      stopped session has none: nothing ever starts it again. */
  lemma {:induction false} OneTimerNoneOnceStopped(now: int, ops: seq<Op>, more: seq<Op>)
    ensures |Run(now, ops).armed.Keys| <= 1
    ensures Run(now, ops).stopped ==>
      Run(now, ops + more).stopped && Run(now, ops + more).armed == map[] &&
        Run(now, ops + more).starts == Run(now, ops).starts
    decreases |more|
  {
    RunKeeps(now, ops);
    if more == [] {
      assert ops + more == ops;
      assert Run(now, ops).stopped ==> Run(now, ops).armed.Keys == {};
    } else {
      OneTimerNoneOnceStopped(now, ops, more[..|more| - 1]);
      assert (ops + more)[..|ops + more| - 1] == ops + more[..|more| - 1];
    }
  }

  /** The timers armed since the session was last connected. */
  ghost function ArmedSince(now: int, ops: seq<Op>): nat {
    if ops == [] then 0
    else
      var front := ops[..|ops| - 1];
      if ops[|ops| - 1].Connected? then 0
      else ArmedSince(now, front) + if Run(now, ops).nextTimer > Run(now, front).nextTimer then 1 else 0
  }

  lemma {:induction false} AttemptsAreArmed(now: int, ops: seq<Op>)
    ensures Run(now, ops).attempts == ArmedSince(now, ops)
  {
    hide Delay;
    if ops != [] { AttemptsAreArmed(now, ops[..|ops| - 1]); }
  }

  /** Over every run: a restart arms a timer exactly when the session is not stopped
      and none is armed, and the timer rings after the backoff of the attempts since
      the session was last connected. */
  lemma RestartArmsTheBackoff(now: int, ops: seq<Op>, again: bool)
    ensures
      var (l, l') := (Run(now, ops), Run(now, ops + [Restart(again)]));
      var n := ArmedSince(now, ops);
      var wait := if again || n == 0 then 3000 else if n == 1 then 6000 else if n == 2 then 12000
                  else if n == 3 then 24000 else if n == 4 then 48000 else 60000;
      && (l.stopped || l.armed != map[] ==> l' == l)
      && (!l.stopped && l.armed == map[] ==>
            l'.armed == map[l.nextTimer := l.now + wait] && l'.timer == Some(l.nextTimer) && l'.starts == l.starts)
  {
    hide Delay;
    RunKeeps(now, ops);
    AttemptsAreArmed(now, ops);
    DelayIs(again, ArmedSince(now, ops));
    assert (ops + [Restart(again)])[..|ops|] == ops;
    var l := Run(now, ops);
    assert l.armed.Keys == {} <==> l.timer.None?;
    if l.armed == map[] { assert l.armed.Keys == {}; }
  }

  lemma StartsGrow(l: Link, op: Op)
    requires Inv(l)
    ensures var starts := Applied(l, op).starts;
      starts == l.starts ||
      (|starts| == |l.starts| + 1 && starts[..|l.starts|] == l.starts &&
       (l.starts != [] ==> l.starts[|l.starts| - 1] + RECONNECT_BASE_MS <= starts[|l.starts|]))
  {
    hide Delay;
  }

  lemma {:induction false} StartsAreApart(now: int, ops: seq<Op>, i: nat)
    requires i + 1 < |Run(now, ops).starts|
    ensures Run(now, ops).starts[i] + RECONNECT_BASE_MS <= Run(now, ops).starts[i + 1]
  {
    hide Applied, Inv;
    var front := ops[..|ops| - 1];
    RunKeeps(now, front);
    StartsGrow(Run(now, front), ops[|ops| - 1]);
    if i + 1 < |Run(now, front).starts| {
      StartsAreApart(now, front, i);
      assert Run(now, ops).starts[..|Run(now, front).starts|] == Run(now, front).starts;
    }
  }

  lemma {:induction false} StartsSpread(now: int, ops: seq<Op>, i: nat, j: nat)
    requires i <= j < |Run(now, ops).starts|
    ensures Run(now, ops).starts[i] + RECONNECT_BASE_MS * (j - i) <= Run(now, ops).starts[j]
    decreases j
  {
    if i < j {
      StartsSpread(now, ops, i, j - 1);
      StartsAreApart(now, ops, j - 1);
    }
  }

  /** A session is restarted by its timer at most width/3000 + 1 times in any
      window of `width` milliseconds. */
  lemma RestartRateIsBounded(now: int, ops: seq<Op>, from: int, width: nat)
    ensures |Hits(Run(now, ops).starts, from, width)| <= width / 3000 + 1
  {
    var starts := Run(now, ops).starts;
    var size := width / RECONNECT_BASE_MS + 1;
    forall i, j | 0 <= i < j < |starts| ensures starts[i] <= starts[j] { StartsSpread(now, ops, i, j); }
    forall i | 0 <= i < |starts| - size ensures starts[i + size] > starts[i] + width {
      StartsSpread(now, ops, i, i + size);
    }
    FewInAnyInterval(starts, from, width, size);
  }
}
