/** Recovery from undecryptable messages: after repeated failures a user's stored
    sessions are cleared, at most once a minute on the user's own account
    (gateway/src/session.js). */
module DecryptRecovery {
  const DECRYPT_CLEAR_THRESHOLD: nat := 2
  const DECRYPT_CLEAR_COOLDOWN_MS: int := 60000

  datatype Record = Record(count: nat, clearedAt: int)

  function RecordOf(failures: map<string, Record>, user: string): Record {
    if user in failures then failures[user] else Record(0, 0)
  }

  /** One more failure of a user: the new record, and whether it calls for a clear. */
  function Noted(r: Record, now: int): (Record, bool) {
    if r.count + 1 >= DECRYPT_CLEAR_THRESHOLD && now - r.clearedAt > DECRYPT_CLEAR_COOLDOWN_MS
    then (Record(0, now), true)
    else (Record(r.count + 1, r.clearedAt), false)
  }

  /** One undecryptable message names up to three users. */
  function AllNoted(failures: map<string, Record>, users: seq<string>, now: int): (map<string, Record>, bool) {
    if users == [] then (failures, false)
    else
      var (before, clear) := AllNoted(failures, users[..|users| - 1], now);
      var user := users[|users| - 1];
      var (r, clearUser) := Noted(RecordOf(before, user), now);
      (before[user := r], clear || clearUser)
  }

  class Recovery {
    var failures: map<string, Record>

    constructor ()
      ensures failures == map[]
    {
      failures := map[];
    }

    /** If it says so, the sessions of all these users are cleared. */
    method HandleDecryptFailure(users: seq<string>, now: int) returns (shouldClear: bool)
      modifies this
      ensures (failures, shouldClear) == AllNoted(old(failures), users, now)
    {
      shouldClear := false;
      for k := 0 to |users|
        invariant (failures, shouldClear) == AllNoted(old(failures), users[..k], now)
      {
        assert users[..k + 1][..k] == users[..k];
        var user := users[k];
        var r := if user in failures then failures[user] else Record(0, 0);
        r := r.(count := r.count + 1);
        if r.count >= DECRYPT_CLEAR_THRESHOLD && now - r.clearedAt > DECRYPT_CLEAR_COOLDOWN_MS {
          shouldClear := true;
          r := r.(clearedAt := now, count := 0);
        }
        failures := failures[user := r];
      }
      assert users[..|users|] == users;
    }

    /** A whole run of messages, from no records. */
    method Execute(run: seq<Failure>) returns (asked: seq<bool>)
      requires failures == map[]
      modifies this
      ensures failures == Records(run) && |asked| == |run|
      ensures forall i :: 0 <= i < |run| ==> asked[i] == AllNoted(Records(run[..i]), run[i].users, run[i].now).1
    {
      hide AllNoted;
      asked := [];
      for k := 0 to |run|
        invariant failures == Records(run[..k]) && |asked| == k
        invariant forall i :: 0 <= i < k ==> asked[i] == AllNoted(Records(run[..i]), run[i].users, run[i].now).1
      {
        assert run[..k + 1][..k] == run[..k];
        var ask := HandleDecryptFailure(run[k].users, run[k].now);
        asked := asked + [ask];
      }
      assert run[..|run|] == run;
    }
  }

  ghost predicate Distinct(users: seq<string>) { forall i, j :: 0 <= i < j < |users| ==> users[i] != users[j] }

  /** Every named user's record moves by its own failure alone, nobody else's
      moves, and a clear is called for exactly when one of the named users calls
      for it. */
  lemma {:induction false} EachUserOnItsOwn(failures: map<string, Record>, users: seq<string>, now: int, user: string)
    requires Distinct(users)
    ensures RecordOf(AllNoted(failures, users, now).0, user)
      == if user in users then Noted(RecordOf(failures, user), now).0 else RecordOf(failures, user)
    ensures AllNoted(failures, users, now).1 <==>
      exists i :: 0 <= i < |users| && Noted(RecordOf(failures, users[i]), now).1
  {
    if users != [] {
      var (front, last) := (users[..|users| - 1], users[|users| - 1]);
      EachUserOnItsOwn(failures, front, now, user);
      EachUserOnItsOwn(failures, front, now, last);
      assert users == front + [last];
      assert last !in front;
      if AllNoted(failures, front, now).1 {
        var i :| 0 <= i < |front| && Noted(RecordOf(failures, front[i]), now).1;
        assert Noted(RecordOf(failures, users[i]), now).1;
      }
      if i :| 0 <= i < |users| && Noted(RecordOf(failures, users[i]), now).1 && i < |front| {
        assert Noted(RecordOf(failures, front[i]), now).1;
      }
    }
  }

  // --- one user's failures -----------------------------------------------------------

  function After(times: seq<int>): Record {
    if times == [] then Record(0, 0) else Noted(After(times[..|times| - 1]), times[|times| - 1]).0
  }

  predicate Clears(times: seq<int>) {
    times != [] && Noted(After(times[..|times| - 1]), times[|times| - 1]).1
  }

  /** The failures, by position, that called for a clear. */
  function ClearedAt(times: seq<int>): seq<nat> {
    if times == [] then []
    else ClearedAt(times[..|times| - 1]) + (if Clears(times) then [|times| - 1] else [])
  }

  /** The record counts the failures since the last clear and remembers its time. */
  lemma {:induction false} RecordIsHistory(times: seq<int>)
    ensures
      var cleared := ClearedAt(times);
      && (cleared == [] ==> After(times) == Record(|times|, 0))
      && (cleared != [] ==>
            var last := cleared[|cleared| - 1];
            last < |times| && After(times) == Record(|times| - 1 - last, times[last]))
  {
    if times != [] { RecordIsHistory(times[..|times| - 1]); }
  }

  /** A failure calls for a clear exactly when it is at least the second since the
      user's last clear and comes more than a minute after it. */
  lemma ClearsExactlyWhen(times: seq<int>, now: int)
    ensures
      var cleared := ClearedAt(times);
      && (cleared == [] ==> (Clears(times + [now]) <==> |times| >= 1 && now > 60000))
      && (cleared != [] ==>
            var last := cleared[|cleared| - 1];
            last < |times| && (Clears(times + [now]) <==>
              |times| - last >= 2 && now > times[last] + 60000))
  {
    hide ClearedAt, After;
    assert (times + [now])[..|times|] == times;
    assert Clears(times + [now]) == Noted(After(times), now).1;
    hide Clears;
    RecordIsHistory(times);
  }

  /** Clears on a user's own account are more than a minute apart. */
  lemma {:induction false} ClearsAreSpaced(times: seq<int>, k: nat)
    requires k + 1 < |ClearedAt(times)|
    ensures ClearedAt(times)[k] < ClearedAt(times)[k + 1] < |times|
    ensures times[ClearedAt(times)[k + 1]] > times[ClearedAt(times)[k]] + 60000
  {
    var front := times[..|times| - 1];
    if k + 1 < |ClearedAt(front)| {
      ClearsAreSpaced(front, k);
    } else {
      RecordIsHistory(front);
    }
  }

  // --- runs -------------------------------------------------------------------------

  /** One undecryptable message: the users it names and the time it came. */
  datatype Failure = Failure(users: seq<string>, now: int)

  /** A JavaScript set names nobody twice. */
  ghost predicate NamesOnce(run: seq<Failure>) { forall i :: 0 <= i < |run| ==> Distinct(run[i].users) }

  /** The records after a run. */
  function Records(run: seq<Failure>): map<string, Record> {
    if run == [] then map[]
    else AllNoted(Records(run[..|run| - 1]), run[|run| - 1].users, run[|run| - 1].now).0
  }

  /** The times at which a user was named. */
  function TimesOf(run: seq<Failure>, user: string): seq<int> {
    if run == [] then []
    else TimesOf(run[..|run| - 1], user) + (if user in run[|run| - 1].users then [run[|run| - 1].now] else [])
  }

  /** After any run a user's record is the one its own failures leave. */
  lemma {:induction false} RecordsAreHistories(run: seq<Failure>, user: string)
    requires NamesOnce(run)
    ensures RecordOf(Records(run), user) == After(TimesOf(run, user))
  {
    hide Noted, AllNoted;
    if run != [] {
      var (front, last) := (run[..|run| - 1], run[|run| - 1]);
      RecordsAreHistories(front, user);
      EachUserOnItsOwn(Records(front), last.users, last.now, user);
      var times := TimesOf(front, user);
      assert (times + [last.now])[..|times|] == times;
      assert times + [] == times;
      assert TimesOf(run, user) == if user in last.users then times + [last.now] else times;
    }
  }

  /** The user's own failure at message `i` calls for a clear. */
  ghost predicate Asks(run: seq<Failure>, i: nat, user: string)
    requires i < |run|
  {
    user in run[i].users && Clears(TimesOf(run[..i], user) + [run[i].now])
  }

  /** Message `i` clears the user's sessions. */
  ghost predicate Hit(run: seq<Failure>, i: nat, user: string)
    requires i < |run|
  {
    user in run[i].users && AllNoted(Records(run[..i]), run[i].users, run[i].now).1
  }

  /** A message clears a user it names exactly when some user it names asks. */
  lemma HitExactlyWhenAsked(run: seq<Failure>, i: nat, user: string)
    requires NamesOnce(run) && i < |run| && user in run[i].users
    ensures Hit(run, i, user) <==> exists other :: other in run[i].users && Asks(run, i, other)
  {
    hide Noted, AllNoted, Records, TimesOf, After;
    var users := run[i].users;
    EachUserOnItsOwn(Records(run[..i]), users, run[i].now, user);
    forall other | other in users
      ensures Asks(run, i, other) <==> Noted(RecordOf(Records(run[..i]), other), run[i].now).1
    {
      RecordsAreHistories(run[..i], other);
      assert (TimesOf(run[..i], other) + [run[i].now])[..|TimesOf(run[..i], other)|] == TimesOf(run[..i], other);
    }
    if Hit(run, i, user) {
      var k :| 0 <= k < |users| && Noted(RecordOf(Records(run[..i]), users[k]), run[i].now).1;
      assert users[k] in users && Asks(run, i, users[k]);
    }
    if other :| other in users && Asks(run, i, other) {
      var k :| 0 <= k < |users| && users[k] == other;
      assert Noted(RecordOf(Records(run[..i]), users[k]), run[i].now).1;
    }
  }

  lemma AskingMoves(run: seq<Failure>, i: nat, user: string)
    requires NamesOnce(run) && i < |run|
    ensures
      var (before, after) := (RecordOf(Records(run[..i]), user), RecordOf(Records(run[..i + 1]), user));
      && (Asks(run, i, user) ==>
           run[i].now > before.clearedAt + 60000 && after.clearedAt == run[i].now)
      && (!Asks(run, i, user) ==> after.clearedAt == before.clearedAt)
  {
    hide AllNoted, After;
    assert run[..i + 1][..i] == run[..i];
    RecordsAreHistories(run[..i], user);
    EachUserOnItsOwn(Records(run[..i]), run[i].users, run[i].now, user);
    assert (TimesOf(run[..i], user) + [run[i].now])[..|TimesOf(run[..i], user)|] == TimesOf(run[..i], user);
  }

  lemma {:induction false} AskingIsRemembered(run: seq<Failure>, i: nat, j: nat, user: string)
    requires NamesOnce(run) && i < j <= |run| && Asks(run, i, user)
    ensures RecordOf(Records(run[..j]), user).clearedAt >= run[i].now
    decreases j
  {
    hide Records, Asks;
    AskingMoves(run, j - 1, user);
    if i < j - 1 { AskingIsRemembered(run, i, j - 1, user); }
  }

  /** Over a whole run two clears that a user's own failures ask for are more than
      a minute apart, whatever else the run clears in between. */
  lemma OwnClearsAreApart(run: seq<Failure>, i: nat, j: nat, user: string)
    requires NamesOnce(run) && i < j < |run| && Asks(run, i, user) && Asks(run, j, user)
    ensures run[j].now > run[i].now + 60000
  {
    hide Records, Asks;
    AskingIsRemembered(run, i, j, user);
    AskingMoves(run, j, user);
  }

  /** Within the minute after a user's own clear the user is cleared again exactly
      when a companion named in the message asks for it. */
  lemma HitWithinTheMinuteExactlyWhen(run: seq<Failure>, i: nat, j: nat, user: string)
    requires NamesOnce(run) && i < j < |run| && Asks(run, i, user) && user in run[j].users
    requires run[j].now <= run[i].now + 60000
    ensures Hit(run, j, user) <==> exists other :: other in run[j].users && other != user && Asks(run, j, other)
  {
    hide Asks, Hit;
    HitExactlyWhenAsked(run, j, user);
    if Asks(run, j, user) {
      OwnClearsAreApart(run, i, j, user);
      assert false;
    }
  }

  /** Two clears that hit a user within a minute are never both its own: one of
      them was asked for by companions alone. */
  lemma CloseHitsComeFromCompanions(run: seq<Failure>, i: nat, j: nat, user: string)
    requires NamesOnce(run) && i < j < |run| && Hit(run, i, user) && Hit(run, j, user)
    requires run[j].now <= run[i].now + 60000
    ensures
      || (!Asks(run, i, user) && exists other :: other in run[i].users && other != user && Asks(run, i, other))
      || (!Asks(run, j, user) && exists other :: other in run[j].users && other != user && Asks(run, j, other))
  {
    hide Asks, Hit;
    assert user in run[i].users && user in run[j].users by { HitNames(run, i, user); HitNames(run, j, user); }
    HitExactlyWhenAsked(run, i, user);
    HitExactlyWhenAsked(run, j, user);
    if Asks(run, i, user) {
      HitWithinTheMinuteExactlyWhen(run, i, j, user);
      assert !Asks(run, j, user) by {
        if Asks(run, j, user) { OwnClearsAreApart(run, i, j, user); }
      }
    }
  }

  lemma HitNames(run: seq<Failure>, i: nat, user: string)
    requires i < |run| && Hit(run, i, user)
    ensures user in run[i].users
  {
  }

  /** The cooldown does not hold for a user named beside another: this clear
      follows the user's own within a millisecond. */
  lemma CompanionIsClearedAgain(user: string, companion: string, t: int)
    requires user != companion && t > 60000
    ensures
      var f1 := AllNoted(map[], [companion], t);
      var f2 := AllNoted(f1.0, [companion], t);
      var f3 := AllNoted(f2.0, [user], t);
      var f4 := AllNoted(f3.0, [user, companion], t + 1);
      !f1.1 && f2.1 && !f3.1 && f4.1
  {
    var f1 := AllNoted(map[], [companion], t).0;
    EachUserOnItsOwn(map[], [companion], t, companion);
    EachUserOnItsOwn(map[], [companion], t, user);
    var f2 := AllNoted(f1, [companion], t).0;
    EachUserOnItsOwn(f1, [companion], t, companion);
    EachUserOnItsOwn(f1, [companion], t, user);
    var f3 := AllNoted(f2, [user], t).0;
    EachUserOnItsOwn(f2, [user], t, user);
    EachUserOnItsOwn(f3, [user, companion], t + 1, user);
    assert [user, companion][0] == user && [companion][0] == companion && [user][0] == user;
  }
}
