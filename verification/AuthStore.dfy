/** The gateway's write-behind credential store: changes land in memory and one
    debounced timer writes the whole memory out (gateway/src/dbAuthState.js). */
module AuthStore {
  import opened Wrappers

  type Bucket = map<string, string>

  /** The creds and `keys[category][id]`. */
  datatype Memory = Memory(creds: string, keys: map<string, Bucket>)

  /** A batch of key writes; None stands for every empty value, which deletes. */
  type Batch = seq<(string, seq<(string, Option<string>)>)>

  const APP_STATE_KEY := "app-state-sync-key"

  /** Stored app-state keys are handed out as the objects they stand for. */
  function AsRead(category: string, value: Option<string>, rebuilt: string -> string): Option<string> {
    if category == APP_STATE_KEY && value.Some? then Some(rebuilt(value.value)) else value
  }

  // --- what a change does to memory ----------------------------------------------

  function Entered(bucket: Bucket, id: string, value: Option<string>): Bucket {
    match value
    case Some(v) => bucket[id := v]
    case None => bucket - {id}
  }

  function BucketMerged(bucket: Bucket, entries: seq<(string, Option<string>)>): Bucket {
    if entries == [] then bucket
    else Entered(BucketMerged(bucket, entries[..|entries| - 1]), entries[|entries| - 1].0, entries[|entries| - 1].1)
  }

  function BucketAt(keys: map<string, Bucket>, category: string): Bucket {
    if category in keys then keys[category] else map[]
  }

  function KeysMerged(keys: map<string, Bucket>, data: Batch): map<string, Bucket> {
    if data == [] then keys
    else
      var before := KeysMerged(keys, data[..|data| - 1]);
      var (category, entries) := data[|data| - 1];
      before[category := BucketMerged(BucketAt(before, category), entries)]
  }

  function UpTo(s: string, c: char): string {
    if s == "" || s[0] == c then "" else [s[0]] + UpTo(s[1..], c)
  }

  /** `<user>.<device>`, the user without its own device part. */
  function UserOf(id: string): string { UpTo(UpTo(id, '.'), ':') }

  function SessionsOf(keys: map<string, Bucket>, users: set<string>): set<string> {
    set id | id in BucketAt(keys, "session") && UserOf(id) in users
  }

  function SessionsCleared(keys: map<string, Bucket>, users: set<string>): map<string, Bucket> {
    if "session" in keys then keys["session" := keys["session"] - SessionsOf(keys, users)] else keys
  }

  // --- the store -------------------------------------------------------------------

  datatype Op =
    | SetKeys(data: Batch)
    | UpdateCreds(creds: string)
    | Clear(users: set<string>)
    | Fire(timer: nat)
    | Flush

  datatype Auth = Auth(
    memory: Memory,
    timer: Option<nat>,      // the store's own handle
    armed: set<nat>,         // timers the event loop will fire
    nextTimer: nat,
    issued: seq<Memory>)     // the PUTs, oldest first

  function Opened(loaded: Memory): Auth { Auth(loaded, None, {}, 0, []) }

  function Scheduled(a: Auth): Auth {
    if a.timer.Some? then a
    else a.(timer := Some(a.nextTimer), armed := a.armed + {a.nextTimer}, nextTimer := a.nextTimer + 1)
  }

  function Saved(a: Auth): Auth { a.(timer := None, issued := a.issued + [a.memory]) }

  function Applied(a: Auth, op: Op): Auth {
    match op
    case SetKeys(data) => Scheduled(a.(memory := a.memory.(keys := KeysMerged(a.memory.keys, data))))
    case UpdateCreds(creds) => Scheduled(a.(memory := a.memory.(creds := creds)))
    case Clear(users) =>
      if SessionsOf(a.memory.keys, users) == {} then a
      else Scheduled(a.(memory := a.memory.(keys := SessionsCleared(a.memory.keys, users))))
    case Fire(timer) => if timer in a.armed then Saved(a.(armed := a.armed - {timer})) else a
    case Flush => if a.timer.Some? then Saved(a.(armed := a.armed - {a.timer.value})) else a
  }

  class Store {
    var creds: string
    var keys: map<string, Bucket>
    var saveTimer: Option<nat>
    var armed: set<nat>
    var nextTimer: nat
    var issued: seq<Memory>

    ghost function Contents(): Auth
      reads this
    {
      Auth(Memory(creds, keys), saveTimer, armed, nextTimer, issued)
    }

    constructor (loaded: Memory)
      ensures Contents() == Opened(loaded)
    {
      creds, keys, saveTimer, armed, nextTimer, issued := loaded.creds, loaded.keys, None, {}, 0, [];
    }

    method DoSave()
      modifies this`saveTimer, this`issued
      ensures Contents() == Saved(old(Contents()))
    {
      saveTimer := None;
      issued := issued + [Memory(creds, keys)];
    }

    method ScheduleSave()
      modifies this`saveTimer, this`armed, this`nextTimer
      ensures Contents() == Scheduled(old(Contents()))
    {
      if saveTimer.Some? { return; }
      saveTimer := Some(nextTimer);
      armed := armed + {nextTimer};
      nextTimer := nextTimer + 1;
    }

    /** The event loop fires an armed timer. */
    method FireTimer(timer: nat)
      modifies this
      ensures Contents() == Applied(old(Contents()), Fire(timer))
    {
      if timer in armed {
        armed := armed - {timer};
        DoSave();
      }
    }

    /** Write out what is pending, without waiting for the timer. */
    method FlushNow()
      modifies this
      ensures Contents() == Applied(old(Contents()), Flush)
    {
      if saveTimer.Some? {
        armed := armed - {saveTimer.value};
        DoSave();
      }
    }

    /** The requested ids with their values, of which the app-state keys are rebuilt
        into their own form. */
    method Get(
      category: string, ids: seq<string>, rebuilt: string -> string) returns (data: map<string, Option<string>>)
      ensures data.Keys == set id | id in ids
      ensures forall id :: id in data ==>
        data[id] ==
          if category !in keys || id !in keys[category] then None
          else if category == "app-state-sync-key" then Some(rebuilt(keys[category][id]))
          else Some(keys[category][id])
    {
      data := map[];
      var bucket := if category in keys then keys[category] else map[];
      for k := 0 to |ids|
        invariant data.Keys == set id | id in ids[..k]
        invariant forall id :: id in data ==> data[id] == AsRead(category, Lookup(keys, category, id), rebuilt)
      {
        var id := ids[k];
        var value := if id in bucket then Some(bucket[id]) else None;
        if category == APP_STATE_KEY && value.Some? {
          value := Some(rebuilt(value.value));
        }
        data := data[id := value];
        assert ids[..k + 1] == ids[..k] + [id];
      }
      assert ids[..|ids|] == ids;
    }

    /** One category of a batch. */
    method MergeCategory(category: string, entries: seq<(string, Option<string>)>)
      modifies this`keys
      ensures keys == old(keys)[category := BucketMerged(BucketAt(old(keys), category), entries)]
    {
      if category !in keys { keys := keys[category := map[]]; }
      for j := 0 to |entries|
        invariant keys == old(keys)[category := BucketMerged(BucketAt(old(keys), category), entries[..j])]
      {
        assert entries[..j + 1][..j] == entries[..j];
        var (id, value) := entries[j];
        match value {
          case Some(v) => keys := keys[category := keys[category][id := v]];
          case None => keys := keys[category := keys[category] - {id}];
        }
      }
      assert entries[..|entries|] == entries;
    }

    method Set(data: Batch)
      modifies this
      ensures Contents() == Applied(old(Contents()), SetKeys(data))
    {
      for i := 0 to |data|
        invariant keys == KeysMerged(old(keys), data[..i])
        invariant creds == old(creds) && saveTimer == old(saveTimer) && armed == old(armed)
        invariant nextTimer == old(nextTimer) && issued == old(issued)
      {
        var (category, entries) := data[i];
        assert data[..i + 1][..i] == data[..i];
        MergeCategory(category, entries);
      }
      assert data[..|data|] == data;
      ScheduleSave();
    }

    /** Baileys changed the creds in place and says so. */
    method CredsUpdate(changed: string)
      modifies this
      ensures Contents() == Applied(old(Contents()), UpdateCreds(changed))
    {
      creds := changed;
      ScheduleSave();
    }

    /** Delete every stored session of these users; save only if any went. */
    method ClearSessionsForUsers(users: set<string>) returns (cleared: nat)
      modifies this
      ensures Contents() == Applied(old(Contents()), Clear(users))
      ensures cleared == |SessionsOf(old(keys), users)|
    {
      hide UserOf;
      cleared := 0;
      if "session" in keys {
        var bucket := keys["session"];
        var todo := bucket.Keys;
        ghost var gone: set<string> := {};
        assert bucket - gone == bucket;
        while todo != {}
          invariant todo <= bucket.Keys
          invariant gone == set id | id in bucket && id !in todo && UserOf(id) in users
          invariant cleared == |gone|
          invariant keys == old(keys)["session" := bucket - gone]
          invariant creds == old(creds) && saveTimer == old(saveTimer) && armed == old(armed)
          invariant nextTimer == old(nextTimer) && issued == old(issued)
          decreases todo
        {
          var id :| id in todo;
          todo := todo - {id};
          if UserOf(id) in users {
            assert bucket - gone - {id} == bucket - (gone + {id});
            keys := keys["session" := keys["session"] - {id}];
            cleared := cleared + 1;
            gone := gone + {id};
          }
        }
        assert gone == SessionsOf(old(keys), users);
      }
      if cleared > 0 { ScheduleSave(); }
    }

    /** A whole run, from the loaded memory. */
    method Execute(ops: seq<Op>)
      requires Contents() == Opened(Memory(creds, keys))
      modifies this
      ensures Contents() == Run(Memory(old(creds), old(keys)), ops)
    {
      hide Applied;
      ghost var loaded := Memory(creds, keys);
      for k := 0 to |ops|
        invariant Contents() == Run(loaded, ops[..k])
      {
        assert ops[..k + 1][..k] == ops[..k];
        match ops[k] {
          case SetKeys(data) => Set(data);
          case UpdateCreds(changed) => CredsUpdate(changed);
          case Clear(users) =>
            var cleared := ClearSessionsForUsers(users);
          case Fire(timer) => FireTimer(timer);
          case Flush => FlushNow();
        }
      }
      assert ops[..|ops|] == ops;
    }
  }

  // --- reading back what was written -----------------------------------------------------

  function Lookup(keys: map<string, Bucket>, category: string, id: string): Option<string> {
    if category in keys && id in keys[category] then Some(keys[category][id]) else None
  }

  /** The last value a list of writes gives a name. */
  function Latest<V>(writes: seq<(string, V)>, name: string): Option<V> {
    if writes == [] then None
    else if writes[|writes| - 1].0 == name then Some(writes[|writes| - 1].1)
    else Latest(writes[..|writes| - 1], name)
  }

  lemma {:induction false} BucketReadsBack(bucket: Bucket, entries: seq<(string, Option<string>)>, id: string)
    ensures
      var after := BucketMerged(bucket, entries);
      (if id in after then Some(after[id]) else None)
        == match Latest(entries, id)
           case Some(value) => value
           case None => if id in bucket then Some(bucket[id]) else None
  {
    if entries != [] { BucketReadsBack(bucket, entries[..|entries| - 1], id); }
  }

  ghost predicate OnePerCategory(data: Batch) {
    forall i, j :: 0 <= i < j < |data| ==> data[i].0 != data[j].0
  }

  /** A batch changes exactly the ids it names: each reads back as its last value
      in the batch, gone if that is empty, and every other id as before. */
  lemma {:induction false} BatchReadsBack(keys: map<string, Bucket>, data: Batch, category: string, id: string)
    requires OnePerCategory(data)
    ensures
      Lookup(KeysMerged(keys, data), category, id)
        == match Latest(data, category)
           case Some(entries) => (match Latest(entries, id)
                                  case Some(value) => value
                                  case None => Lookup(keys, category, id))
           case None => Lookup(keys, category, id)
  {
    if data != [] {
      var front := data[..|data| - 1];
      BatchReadsBack(keys, front, category, id);
      if data[|data| - 1].0 == category {
        Unnamed(front, category);
        BucketReadsBack(BucketAt(KeysMerged(keys, front), category), data[|data| - 1].1, id);
      }
    }
  }

  lemma {:induction false} Unnamed(data: Batch, category: string)
    requires forall i :: 0 <= i < |data| ==> data[i].0 != category
    ensures Latest(data, category) == None
  {
    if data != [] { Unnamed(data[..|data| - 1], category); }
  }

  /** Clearing sessions removes exactly the ids of those users, of all their devices. */
  lemma ClearingRemovesOnlyTheirSessions(keys: map<string, Bucket>, users: set<string>, category: string, id: string)
    ensures
      Lookup(SessionsCleared(keys, users), category, id)
        == if category == "session" && UserOf(id) in users then None else Lookup(keys, category, id)
  {
  }

  lemma {:induction false} UpToLaws(s: string, c: char)
    ensures c !in UpTo(s, c) && UpTo(s, c) <= s
    ensures UpTo(s, c) == s || (|UpTo(s, c)| < |s| && s[|UpTo(s, c)|] == c)
  {
    if s != "" && s[0] != c { UpToLaws(s[1..], c); }
  }

  lemma {:induction false} UpToJoined(head: string, c: char, tail: string)
    requires c !in head
    ensures UpTo(head + [c] + tail, c) == head && UpTo(head, c) == head
  {
    if head != "" {
      UpToJoined(head[1..], c, tail);
      assert (head + [c] + tail)[1..] == head[1..] + [c] + tail;
    } else {
      assert (head + [c] + tail)[0] == c;
    }
  }

  /** Every device of a user is found under the user's bare number. */
  lemma DevicesBelongToTheirUser(user: string, domain: string, device: string)
    requires '.' !in user && ':' !in user && '.' !in domain
    ensures UserOf(user + "." + device) == user
    ensures UserOf(user + ":" + domain + "." + device) == user
  {
    UpToJoined(user, '.', device);
    UpToJoined(user, ':', domain);
    UpToJoined(user + ":" + domain, '.', device);
    assert user + ":" + domain + "." + device == (user + ":" + domain) + "." + device;
  }

  // --- runs --------------------------------------------------------------------------------

  function Run(loaded: Memory, ops: seq<Op>): Auth {
    if ops == [] then Opened(loaded) else Applied(Run(loaded, ops[..|ops| - 1]), ops[|ops| - 1])
  }

  /** The memory the changes of a run leave, timers and writes aside. */
  function Changed(loaded: Memory, ops: seq<Op>): Memory {
    if ops == [] then loaded
    else
      var before := Changed(loaded, ops[..|ops| - 1]);
      match ops[|ops| - 1]
      case SetKeys(data) => before.(keys := KeysMerged(before.keys, data))
      case UpdateCreds(creds) => before.(creds := creds)
      case Clear(users) => before.(keys := SessionsCleared(before.keys, users))
      case _ => before
  }

  /** What the backend was last told, or what was loaded from it. */
  function LastIssued(loaded: Memory, a: Auth): Memory {
    if a.issued == [] then loaded else a.issued[|a.issued| - 1]
  }

  ghost predicate Inv(loaded: Memory, a: Auth) {
    && a.armed == (if a.timer.Some? then {a.timer.value} else {})
    && (a.timer.Some? ==> a.timer.value < a.nextTimer)
    && (a.memory != LastIssued(loaded, a) ==> a.timer.Some?)
  }

  lemma ApplyKeeps(loaded: Memory, a: Auth, op: Op)
    requires Inv(loaded, a)
    ensures Inv(loaded, Applied(a, op))
  {
  }

  lemma {:induction false} RunKeeps(loaded: Memory, ops: seq<Op>)
    ensures Inv(loaded, Run(loaded, ops))
    ensures Run(loaded, ops).memory == Changed(loaded, ops)
  {
    hide KeysMerged, SessionsCleared;
    if ops != [] {
      var front := ops[..|ops| - 1];
      RunKeeps(loaded, front);
      ApplyKeeps(loaded, Run(loaded, front), ops[|ops| - 1]);
      if ops[|ops| - 1].Clear? { NothingToClear(Run(loaded, front).memory.keys, ops[|ops| - 1].users); }
    }
  }

  lemma NothingToClear(keys: map<string, Bucket>, users: set<string>)
    ensures SessionsOf(keys, users) == {} ==> SessionsCleared(keys, users) == keys
  {
    if SessionsOf(keys, users) == {} && "session" in keys {
      assert keys["session"] - {} == keys["session"];
    }
  }

  /** The operations that ask for a save: a batch, new creds, a clear that clears. */
  ghost predicate AsksForSave(a: Auth, op: Op) {
    op.SetKeys? || op.UpdateCreds? || (op.Clear? && SessionsOf(a.memory.keys, op.users) != {})
  }

  /** Operation `k` asked for a save, and nothing was written out after it. */
  ghost predicate PendingSince(loaded: Memory, ops: seq<Op>, k: nat) {
    && k < |ops| && AsksForSave(Run(loaded, ops[..k]), ops[k])
    && Run(loaded, ops).issued == Run(loaded, ops[..k + 1]).issued
  }

  lemma {:induction false} WritesOnlyGrow(loaded: Memory, ops: seq<Op>, k: nat)
    requires k <= |ops|
    ensures |Run(loaded, ops[..k]).issued| <= |Run(loaded, ops).issued|
    decreases |ops|
  {
    if k == |ops| {
      assert ops[..k] == ops;
    } else {
      var front := ops[..|ops| - 1];
      WritesOnlyGrow(loaded, front, k);
      assert ops[..k] == front[..k];
      IssuesMemory(Run(loaded, front), ops[|ops| - 1]);
    }
  }

  /** What one operation does to the timer. */
  lemma TimerAfter(a: Auth, op: Op)
    requires a.armed == if a.timer.Some? then {a.timer.value} else {}
    ensures
      var a' := Applied(a, op);
      && (AsksForSave(a, op) ==> a'.timer.Some? && a'.issued == a.issued)
      && (|a'.issued| > |a.issued| ==> a'.timer.None? && !AsksForSave(a, op))
      && (!AsksForSave(a, op) && |a'.issued| <= |a.issued| ==> a'.timer == a.timer && a'.issued == a.issued)
  {
    hide KeysMerged, SessionsCleared;
  }

  lemma PendingFront(loaded: Memory, ops: seq<Op>, k: nat)
    requires ops != [] && k < |ops| - 1
    ensures
      var front := ops[..|ops| - 1];
      PendingSince(loaded, ops, k) <==>
        PendingSince(loaded, front, k) && Run(loaded, ops).issued == Run(loaded, front).issued
  {
    hide Run, AsksForSave;
    var front := ops[..|ops| - 1];
    assert ops[..k] == front[..k] && ops[..k + 1] == front[..k + 1];
    WritesOnlyGrow(loaded, front, k + 1);
    assert |Run(loaded, front).issued| <= |Run(loaded, ops).issued| by { WritesOnlyGrow(loaded, ops, |front|); }
    if PendingSince(loaded, ops, k) { SameWrites(loaded, ops, front); }
  }

  /** A write in between would have shown. */
  lemma SameWrites(loaded: Memory, ops: seq<Op>, front: seq<Op>)
    requires ops != [] && front == ops[..|ops| - 1]
    requires |Run(loaded, ops).issued| == |Run(loaded, front).issued|
    ensures Run(loaded, ops).issued == Run(loaded, front).issued
  {
    IssuesMemory(Run(loaded, front), ops[|ops| - 1]);
  }

  /** A timer is armed exactly when a save was asked for after the last write, even
      if the change that asked for it was undone since. */
  lemma {:induction false} TimerExactlyWhenAskedFor(loaded: Memory, ops: seq<Op>)
    ensures Run(loaded, ops).timer.Some? <==> exists k: nat :: PendingSince(loaded, ops, k)
  {
    hide Applied, AsksForSave, PendingSince;
    if ops == [] {
      NothingPending(loaded);
    } else {
      var (front, last) := (ops[..|ops| - 1], ops[|ops| - 1]);
      TimerExactlyWhenAskedFor(loaded, front);
      RunKeeps(loaded, front);
      var (a, a') := (Run(loaded, front), Run(loaded, ops));
      TimerAfter(a, last);
      LastIsPending(loaded, ops);
      forall k: nat | PendingSince(loaded, ops, k) ensures k < |ops| { PendingIsEarlier(loaded, ops, k); }
      if k: nat :| PendingSince(loaded, front, k) {
        PendingIsEarlier(loaded, front, k);
        PendingFront(loaded, ops, k);
      }
      if k: nat :| PendingSince(loaded, ops, k) && k < |front| { PendingFront(loaded, ops, k); }
    }
  }

  lemma NothingPending(loaded: Memory)
    ensures Run(loaded, []).timer.None? && forall k: nat :: !PendingSince(loaded, [], k)
  {
  }

  lemma PendingIsEarlier(loaded: Memory, ops: seq<Op>, k: nat)
    requires PendingSince(loaded, ops, k)
    ensures k < |ops|
  {
  }

  lemma LastIsPending(loaded: Memory, ops: seq<Op>)
    requires ops != []
    ensures PendingSince(loaded, ops, |ops| - 1) <==>
      AsksForSave(Run(loaded, ops[..|ops| - 1]), ops[|ops| - 1])
  {
    hide Run, AsksForSave;
    assert ops[..|ops| - 1 + 1] == ops;
  }

  /** In every interleaving of changes, timers and flushes: there is one armed timer
      exactly when a save was asked for after the last write, in particular while
      the backend was not told of a change; firing it, or flushing, tells the backend
      all of memory. */
  lemma UnsavedMeansOneTimer(loaded: Memory, ops: seq<Op>)
    ensures
      var a := Run(loaded, ops);
      && |a.armed| <= 1
      && (|a.armed| == 1 <==> exists k: nat :: PendingSince(loaded, ops, k))
      && (Changed(loaded, ops) != LastIssued(loaded, a) ==> |a.armed| == 1)
      && (forall t :: t in a.armed ==>
            LastIssued(loaded, Applied(a, Fire(t))) == Changed(loaded, ops) && Applied(a, Fire(t)).armed == {})
      && LastIssued(loaded, Applied(a, Flush)) == Changed(loaded, ops) && Applied(a, Flush).armed == {}
  {
    hide Changed, PendingSince, KeysMerged, SessionsCleared;
    RunKeeps(loaded, ops);
    TimerExactlyWhenAskedFor(loaded, ops);
  }

  /** The moments at which a run issues a write. */
  ghost function IssuedAt(loaded: Memory, ops: seq<Op>): seq<nat> {
    if ops == [] then []
    else
      var front := ops[..|ops| - 1];
      IssuedAt(loaded, front) + (if |Run(loaded, ops).issued| > |Run(loaded, front).issued| then [|ops|] else [])
  }

  /** Each write carries every change made before it, and later writes carry later
      moments. */
  lemma {:induction false} WritesCarryAllEarlierChanges(loaded: Memory, ops: seq<Op>)
    ensures |Run(loaded, ops).issued| == |IssuedAt(loaded, ops)|
    ensures forall k :: 0 <= k < |IssuedAt(loaded, ops)| ==>
      IssuedAt(loaded, ops)[k] <= |ops| &&
      Run(loaded, ops).issued[k] == Changed(loaded, ops[..IssuedAt(loaded, ops)[k]])
    ensures forall j, k :: 0 <= j < k < |IssuedAt(loaded, ops)| ==> IssuedAt(loaded, ops)[j] < IssuedAt(loaded, ops)[k]
  {
    hide Changed, KeysMerged, SessionsCleared;
    if ops != [] {
      var front := ops[..|ops| - 1];
      WritesCarryAllEarlierChanges(loaded, front);
      RunKeeps(loaded, ops);
      assert ops[..|ops|] == ops;
      forall k | 0 <= k < |IssuedAt(loaded, front)|
        ensures ops[..IssuedAt(loaded, front)[k]] == front[..IssuedAt(loaded, front)[k]]
      {
      }
      IssuesMemory(Run(loaded, front), ops[|ops| - 1]);
    }
  }

  lemma IssuesMemory(a: Auth, op: Op)
    ensures
      var a' := Applied(a, op);
      a'.issued == a.issued || a'.issued == a.issued + [a'.memory]
  {
  }
}
