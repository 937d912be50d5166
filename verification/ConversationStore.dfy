/** The Redis side of a conversation: a hash, a transcript list, an unread counter
    and an outbound queue per chat, an index set per tenant, each with its own
    expiry (backend/app/services/conversation_state.py). */
module ConversationStore {
  import opened Wrappers
  import opened Conversations

  /** A Redis value with its expiry instant. */
  datatype Keyed<+T> = Keyed(value: T, deadline: Option<int>)

  datatype ConvHash = ConvHash(status: Option<Status>, state: Option<Saved>, lastActivity: Option<int>)

  const EMPTY_HASH := ConvHash(None, None, None)

  /** EXPIRE and PERSIST act only on a key that exists. */
  function Retimed<K, V>(m: map<K, Keyed<V>>, k: K, deadline: Option<int>): map<K, Keyed<V>> {
    if k in m then m[k := m[k].(deadline := deadline)] else m
  }

  function HashAt(m: map<ChatRef, Keyed<ConvHash>>, ref: ChatRef): ConvHash {
    if ref in m then m[ref].value else EMPTY_HASH
  }

  /** A write to an existing key keeps its expiry. */
  function Rewritten<K, V>(m: map<K, Keyed<V>>, k: K, value: V): map<K, Keyed<V>> {
    m[k := Keyed(value, if k in m then m[k].deadline else None)]
  }

  /** LTRIM -200 -1. */
  function Recent(lines: seq<Line>): seq<Line> {
    if |lines| > TRANSCRIPT_MAX then lines[|lines| - TRANSCRIPT_MAX..] else lines
  }

  /** Trimming after every line keeps the last 200 of all lines. */
  lemma RecentGrows(lines: seq<Line>, line: Line)
    ensures Recent(Recent(lines) + [line]) == Recent(lines + [line])
  {
  }

  function LogAt(m: map<ChatRef, Keyed<seq<Line>>>, ref: ChatRef): seq<Line> {
    if ref in m then m[ref].value else []
  }

  function CountAt(m: map<ChatRef, Keyed<nat>>, ref: ChatRef): nat {
    if ref in m then m[ref].value else 0
  }

  function Unexpired<K, V>(m: map<K, Keyed<V>>, now: int): map<K, Keyed<V>> {
    map k | k in m && Alive(now, m[k].deadline) :: m[k]
  }

  // --- the owner's list ----------------------------------------------------------

  /** The chat has a hash, of the status asked for; no status means bot. */
  predicate Shown(hashes: map<ChatRef, Keyed<ConvHash>>, ref: ChatRef, status: Option<Status>) {
    ref in hashes && (status.None? || hashes[ref].value.status.GetOr(Bot) == status.value)
  }

  /** At least as recent; a missing time is the oldest. */
  predicate AtLeastAsRecent(a: Option<int>, b: Option<int>) {
    b.None? || (a.Some? && a.value >= b.value)
  }

  function ActivityOf(hashes: map<ChatRef, Keyed<ConvHash>>, business: string, c: string): Option<int> {
    HashAt(hashes, ChatRef(business, c)).lastActivity
  }

  ghost predicate NewestFirst(hashes: map<ChatRef, Keyed<ConvHash>>, business: string, items: seq<string>) {
    forall i, j :: 0 <= i < j < |items| ==>
      AtLeastAsRecent(ActivityOf(hashes, business, items[i]), ActivityOf(hashes, business, items[j]))
  }

  /** One more chat in its place. */
  function Inserted(
    hashes: map<ChatRef, Keyed<ConvHash>>, business: string, items: seq<string>, c: string): seq<string>
  {
    if items == [] || AtLeastAsRecent(ActivityOf(hashes, business, c), ActivityOf(hashes, business, items[0]))
    then [c] + items
    else [items[0]] + Inserted(hashes, business, items[1..], c)
  }

  lemma {:induction false} InsertedLaws(
    hashes: map<ChatRef, Keyed<ConvHash>>, business: string, items: seq<string>, c: string)
    requires NewestFirst(hashes, business, items) && c !in items
    requires forall i, j :: 0 <= i < j < |items| ==> items[i] != items[j]
    ensures
      var more := Inserted(hashes, business, items, c);
      && NewestFirst(hashes, business, more)
      && (forall d :: d in more <==> d == c || d in items)
      && (forall i, j :: 0 <= i < j < |more| ==> more[i] != more[j])
  {
    hide ActivityOf;
    if items != [] && !AtLeastAsRecent(ActivityOf(hashes, business, c), ActivityOf(hashes, business, items[0])) {
      InsertedLaws(hashes, business, items[1..], c);
      var rest := Inserted(hashes, business, items[1..], c);
      assert forall d :: d in items <==> d == items[0] || d in items[1..];
      forall j | 0 <= j < |rest|
        ensures AtLeastAsRecent(ActivityOf(hashes, business, items[0]), ActivityOf(hashes, business, rest[j]))
      {
        assert rest[j] == c || rest[j] in items[1..];
      }
      assert items[0] !in rest;
    }
  }

  /** A second listing of a chat only moves the expiry. */
  lemma EnlistTwice(index: map<string, Listing>, ref: ChatRef, first: Option<int>, second: Option<int>)
    ensures Enlist(Enlist(index, ref, first), ref, second) == Enlist(index, ref, second)
  {
    assert Enlist(index, ref, first)[ref.business].members + {ref.conversation} ==
      Enlist(index, ref, first)[ref.business].members;
  }

  class Store {
    var now: int
    var hashes: map<ChatRef, Keyed<ConvHash>>
    var logs: map<ChatRef, Keyed<seq<Line>>>
    var unreads: map<ChatRef, Keyed<nat>>
    var outboxes: map<ChatRef, Keyed<seq<Line>>>
    var index: map<string, Listing>

    constructor ()
      ensures now == 0 && hashes == map[] && logs == map[] && unreads == map[] && outboxes == map[] && index == map[]
    {
      now, hashes, logs, unreads, outboxes, index := 0, map[], map[], map[], map[], map[];
    }

    // --- reads ----------------------------------------------------------------

    method GetStatus(ref: ChatRef) returns (r: Option<Status>)
      ensures r == HashAt(hashes, ref).status
    {
      r := HashAt(hashes, ref).status;
    }

    method GetState(ref: ChatRef) returns (r: Option<Saved>)
      ensures r == HashAt(hashes, ref).state
    {
      r := HashAt(hashes, ref).state;
    }

    method GetLastActivityAt(ref: ChatRef) returns (r: Option<int>)
      ensures r == HashAt(hashes, ref).lastActivity
    {
      r := HashAt(hashes, ref).lastActivity;
    }

    // --- internal helpers -------------------------------------------------------

    /** Add the chat to its tenant's index and refresh the index for 72 hours. */
    method Register(ref: ChatRef)
      modifies this`index
      ensures index == Enlist(old(index), ref, Some(now + CONVERSATION_TTL_SECONDS))
    {
      var members := if ref.business in index then index[ref.business].members else {};
      index := index[ref.business := Listing(members + {ref.conversation}, Some(now + CONVERSATION_TTL_SECONDS))];
    }

    /** The status-driven expiry on hash, transcript, counter and index alike. */
    method ApplyTtl(ref: ChatRef, status: Option<Status>)
      modifies this`hashes, this`logs, this`unreads, this`index
      ensures hashes == Retimed(old(hashes), ref, DeadlineOf(now, status))
      ensures logs == Retimed(old(logs), ref, DeadlineOf(now, status))
      ensures unreads == Retimed(old(unreads), ref, DeadlineOf(now, status))
      ensures index == if ref.business in old(index)
        then old(index)[ref.business := old(index)[ref.business].(deadline := DeadlineOf(now, status))] else old(index)
    {
      if status == Some(Waiting) || status == Some(Human) {
        hashes := Retimed(hashes, ref, None);
        logs := Retimed(logs, ref, None);
        unreads := Retimed(unreads, ref, None);
        if ref.business in index { index := index[ref.business := index[ref.business].(deadline := None)]; }
      } else {
        var ttl := if status == Some(Closed) then CLOSED_TTL_SECONDS else CONVERSATION_TTL_SECONDS;
        hashes := Retimed(hashes, ref, Some(now + ttl));
        logs := Retimed(logs, ref, Some(now + ttl));
        unreads := Retimed(unreads, ref, Some(now + ttl));
        if ref.business in index { index := index[ref.business := index[ref.business].(deadline := Some(now + ttl))]; }
      }
    }

    // --- writes -------------------------------------------------------------------

    /** Saves the engine state and puts 72 hours on the hash, whatever the status. */
    method SetState(ref: ChatRef, state: Saved)
      modifies this`hashes, this`index
      ensures hashes == old(hashes)[ref := Keyed(HashAt(old(hashes), ref).(state := Some(state)),
        Some(now + CONVERSATION_TTL_SECONDS))]
      ensures index == Enlist(old(index), ref, Some(now + CONVERSATION_TTL_SECONDS))
    {
      hashes := Rewritten(hashes, ref, HashAt(hashes, ref).(state := Some(state)));
      hashes := Retimed(hashes, ref, Some(now + CONVERSATION_TTL_SECONDS));
      Register(ref);
    }

    method SetStatus(ref: ChatRef, status: Status)
      modifies this`hashes, this`logs, this`unreads, this`index
      ensures hashes == old(hashes)[ref := Keyed(
        HashAt(old(hashes), ref).(status := Some(status), lastActivity := Some(now)), DeadlineOf(now, Some(status)))]
      ensures logs == Retimed(old(logs), ref, DeadlineOf(now, Some(status)))
      ensures unreads == Retimed(old(unreads), ref, DeadlineOf(now, Some(status)))
      ensures index == Enlist(old(index), ref, DeadlineOf(now, Some(status)))
    {
      hashes := Rewritten(hashes, ref, HashAt(hashes, ref).(status := Some(status), lastActivity := Some(now)));
      Register(ref);
      ApplyTtl(ref, Some(status));
    }

    /** One line more, trimmed to the last 200; every key of the chat gets the
        expiry its current status calls for. */
    method AppendMessage(ref: ChatRef, role: Role, body: string)
      modifies this`hashes, this`logs, this`unreads, this`index
      ensures var deadline := DeadlineOf(now, HashAt(old(hashes), ref).status);
        && hashes == old(hashes)[ref := Keyed(HashAt(old(hashes), ref).(lastActivity := Some(now)), deadline)]
        && logs == old(logs)[ref := Keyed(Recent(LogAt(old(logs), ref) + [Line(role, body)]), deadline)]
        && unreads == Retimed(old(unreads), ref, deadline)
        && index == Enlist(old(index), ref, deadline)
    {
      hide Recent;
      logs := Rewritten(logs, ref, LogAt(logs, ref) + [Line(role, body)]);
      logs := Rewritten(logs, ref, Recent(logs[ref].value));
      hashes := Rewritten(hashes, ref, HashAt(hashes, ref).(lastActivity := Some(now)));
      Register(ref);
      var current := HashAt(hashes, ref).status;
      ApplyTtl(ref, if current.Some? then current else Some(Bot));
    }

    method IncrUnread(ref: ChatRef)
      modifies this`unreads
      ensures unreads == old(unreads)[ref := Keyed(CountAt(old(unreads), ref) + 1,
        DeadlineOf(now, HashAt(hashes, ref).status))]
    {
      unreads := Rewritten(unreads, ref, CountAt(unreads, ref) + 1);
      var current := HashAt(hashes, ref).status;
      if current == Some(Waiting) || current == Some(Human) {
        unreads := Retimed(unreads, ref, None);
      } else {
        var ttl := if current == Some(Closed) then CLOSED_TTL_SECONDS else CONVERSATION_TTL_SECONDS;
        unreads := Retimed(unreads, ref, Some(now + ttl));
      }
    }

    method MarkRead(ref: ChatRef)
      modifies this`unreads
      ensures unreads == old(unreads) - {ref}
    {
      unreads := unreads - {ref};
    }

    method ResetConversation(ref: ChatRef)
      modifies this`hashes, this`logs, this`unreads, this`index
      ensures hashes == old(hashes) - {ref} && logs == old(logs) - {ref} && unreads == old(unreads) - {ref}
      ensures index == Unlist(old(index), ref.business, {ref.conversation})
    {
      hashes := hashes - {ref};
      logs := logs - {ref};
      unreads := unreads - {ref};
      RemoveMembers(ref.business, {ref.conversation});
    }

    /** SREM; the set goes with its last member. */
    method RemoveMembers(business: string, gone: set<string>)
      modifies this`index
      ensures index == Unlist(old(index), business, gone)
    {
      if business in index && !(index[business].members !! gone) {
        var rest := index[business].members - gone;
        if rest == {} {
          index := index - {business};
        } else {
          index := index[business := index[business].(members := rest)];
        }
      }
    }

    /** Queue an owner's reply; the queue always expires after 72 hours, the chat
        as its status says. */
    method AppendReply(ref: ChatRef, text: string)
      modifies this`hashes, this`logs, this`unreads, this`outboxes, this`index
      ensures outboxes == old(outboxes)[ref := Keyed(LogAt(old(outboxes), ref) + [Line(Owner, text)],
        Some(now + CONVERSATION_TTL_SECONDS))]
      ensures var deadline := DeadlineOf(now, HashAt(old(hashes), ref).status);
        && hashes == old(hashes)[ref := Keyed(HashAt(old(hashes), ref).(lastActivity := Some(now)), deadline)]
        && logs == old(logs)[ref := Keyed(Recent(LogAt(old(logs), ref) + [Line(Owner, text)]), deadline)]
        && unreads == Retimed(old(unreads), ref, deadline)
        && index == Enlist(old(index), ref, deadline)
    {
      hide Recent, DeadlineOf, Enlist, LogAt;
      outboxes := Rewritten(outboxes, ref, LogAt(outboxes, ref) + [Line(Owner, text)]);
      hashes := Rewritten(hashes, ref, HashAt(hashes, ref).(lastActivity := Some(now)));
      hashes := Retimed(hashes, ref, Some(now + CONVERSATION_TTL_SECONDS));
      outboxes := Retimed(outboxes, ref, Some(now + CONVERSATION_TTL_SECONDS));
      Register(ref);
      EnlistTwice(old(index), ref, Some(now + CONVERSATION_TTL_SECONDS), DeadlineOf(now, HashAt(hashes, ref).status));
      AppendMessage(ref, Owner, text);
    }

    /** The listed conversations of a tenant whose hash still exists, of one status
        if one is asked for, the most recent activity first; the listed ones without
        a hash are pruned from the index. */
    method ListConversations(business: string, status: Option<Status>) returns (items: seq<string>)
      modifies this`index
      ensures forall c :: c in items <==>
        business in old(index) && c in old(index)[business].members && Shown(hashes, ChatRef(business, c), status)
      ensures business !in old(index) ==> items == []
      ensures NewestFirst(hashes, business, items)
      ensures forall i, j :: 0 <= i < j < |items| ==> items[i] != items[j]
      ensures index ==
        if business in old(index)
        then Unlist(old(index), business, set c | c in old(index)[business].members && ChatRef(business, c) !in hashes)
        else old(index)
    {
      items := [];
      if business !in index { return; }
      var listed := index[business].members;
      var todo := listed;
      var stale: set<string> := {};
      while todo != {}
        invariant index == old(index) && todo <= listed
        invariant forall c :: c in items <==> c in listed && c !in todo && Shown(hashes, ChatRef(business, c), status)
        invariant forall c :: c in stale <==> c in listed && c !in todo && ChatRef(business, c) !in hashes
        invariant NewestFirst(hashes, business, items)
        invariant forall i, j :: 0 <= i < j < |items| ==> items[i] != items[j]
        decreases todo
      {
        var c :| c in todo;
        todo := todo - {c};
        if ChatRef(business, c) !in hashes {
          stale := stale + {c};
        } else if status.None? || HashAt(hashes, ChatRef(business, c)).status.GetOr(Bot) == status.value {
          InsertedLaws(hashes, business, items, c);
          items := Inserted(hashes, business, items, c);
        }
      }
      assert stale == set c | c in listed && ChatRef(business, c) !in hashes;
      if stale != {} {
        RemoveMembers(business, stale);
      }
    }

    /** Time passes: every expired key is gone. */
    method Elapse(seconds: nat)
      modifies this
      ensures now == old(now) + seconds
      ensures hashes == Unexpired(old(hashes), now) && logs == Unexpired(old(logs), now)
      ensures unreads == Unexpired(old(unreads), now) && outboxes == Unexpired(old(outboxes), now)
      ensures index == map b | b in old(index) && Alive(now, old(index)[b].deadline) :: old(index)[b]
    {
      now := now + seconds;
      hashes := Unexpired(hashes, now);
      logs := Unexpired(logs, now);
      unreads := Unexpired(unreads, now);
      outboxes := Unexpired(outboxes, now);
      index := map b | b in index && Alive(now, index[b].deadline) :: index[b];
    }
  }
}
