/** What Redis holds after any run of operations: the keys a valid runtime keeps
    for a chat, in terms of the chat's status and history alone. */
module RuntimeKeys {
  import opened Wrappers
  import opened BotEngine
  import opened ChatKeys
  import opened Conversations
  import opened RuntimeHandoff
  import opened ConversationStore
  import opened BotRuntime
  import opened RuntimeTimes
  import opened RuntimeTranscript

  /** The existing keys of the chat carry the expiry the hash's status calls for,
      counted from its last activity. */
  ghost predicate OneExpiry(
    hash: Keyed<ConvHash>, ref: ChatRef, logs: map<ChatRef, Keyed<seq<Line>>>, unreads: map<ChatRef, Keyed<nat>>)
  {
    && hash.value.lastActivity.Some?
    && hash.deadline == DeadlineOf(hash.value.lastActivity.value, hash.value.status)
    && (ref in logs ==> logs[ref].deadline == hash.deadline)
    && (ref in unreads ==> unreads[ref].deadline == hash.deadline)
    && (hash.value.status == Some(Waiting) || hash.value.status == Some(Human) ==> hash.deadline.None?)
  }

  /** The last 200 lines. */
  function LastLines(lines: seq<Line>): seq<Line> {
    if |lines| <= 200 then lines else lines[|lines| - 200..]
  }

  lemma LastAreRecent(lines: seq<Line>)
    ensures LastLines(lines) == Recent(lines)
  {
  }

  /** Whichever keys of a chat exist after a run carry one expiry, the one its
      status calls for counted from its last activity; the transcript key holds
      the last 200 lines of its history and the counter key its unseen messages. */
  lemma StoredKeys(
    words: Wording, n: Notices, ops: seq<Op>, ref: ChatRef,
    hashes: map<ChatRef, Keyed<ConvHash>>, logs: map<ChatRef, Keyed<seq<Line>>>, unreads: map<ChatRef, Keyed<nat>>)
    requires Refines(hashes, logs, unreads, Run(words, n, START, ops).chats)
    ensures ref in logs || ref in unreads ==> ref in hashes
    ensures ref in hashes ==> OneExpiry(hashes[ref], ref, logs, unreads)
    ensures LogAt(logs, ref) == LastLines(LinesIn(History(words, n, ops, ref)))
    ensures CountAt(unreads, ref) == Unseen(History(words, n, ops, ref))
  {
    hide Recent, LastLines, History, LinesIn, Unseen;
    RetentionHolds(words, n, ops);
    TranscriptAndBadge(words, n, ops, ref);
    LastAreRecent(LinesIn(History(words, n, ops, ref)));
    NothingRecent();
    var end := Run(words, n, START, ops);
    if ref in end.chats {
      assert ChatTimes(end, ref);
    }
  }

  /** A runtime that executes any run of operations ends with exactly those keys. */
  method KeysAfterRun(words: Wording, n: Notices, ops: seq<Op>) returns (runtime: Runtime)
    ensures fresh(runtime) && fresh(runtime.store)
    ensures runtime.Valid() && runtime.Snapshot() == Run(words, n, START, ops)
    ensures forall ref ::
      && LogAt(runtime.store.logs, ref) == LastLines(LinesIn(History(words, n, ops, ref)))
      && CountAt(runtime.store.unreads, ref) == Unseen(History(words, n, ops, ref))
      && (ref in runtime.store.logs || ref in runtime.store.unreads ==> ref in runtime.store.hashes)
      && (ref in runtime.store.hashes ==>
        OneExpiry(runtime.store.hashes[ref], ref, runtime.store.logs, runtime.store.unreads))
  {
    hide LastLines, History, LinesIn, Unseen, OneExpiry, Run, LogAt, CountAt;
    runtime := new Runtime(words, n);
    runtime.Execute(ops);
    forall ref
      ensures LogAt(runtime.store.logs, ref) == LastLines(LinesIn(History(words, n, ops, ref)))
      ensures CountAt(runtime.store.unreads, ref) == Unseen(History(words, n, ops, ref))
      ensures ref in runtime.store.logs || ref in runtime.store.unreads ==> ref in runtime.store.hashes
      ensures ref in runtime.store.hashes ==>
        OneExpiry(runtime.store.hashes[ref], ref, runtime.store.logs, runtime.store.unreads)
    {
      StoredKeys(words, n, ops, ref, runtime.store.hashes, runtime.store.logs, runtime.store.unreads);
    }
  }

  lemma NothingRecent()
    ensures Recent([]) == []
  {
  }

  // --- tenants, by the texts of their keys ------------------------------------------------

  /** What stands under a key. */
  datatype Content =
    | HashContent(hash: Keyed<ConvHash>)
    | LogContent(lines: Keyed<seq<Line>>)
    | CountContent(count: Keyed<nat>)
    | IndexContent(listing: Listing)

  /** What a world keeps under a key, if anything; the outbound queue is not part
      of a world. */
  ghost function ContentAt(w: World, key: Key): Option<Content> {
    if key.IndexKey? then if key.business in w.index then Some(IndexContent(w.index[key.business])) else None
    else
      var ref := ChatRef(key.business, key.conversation);
      if ref !in w.chats then None
      else
        var chat := w.chats[ref];
        match key
        case StateKey(_, _) =>
          Some(HashContent(Keyed(ConvHash(chat.status, chat.saved, Some(chat.lastActivity)), chat.deadline)))
        case LogKey(_, _) =>
          if chat.lines == [] then None else Some(LogContent(Keyed(Recent(chat.lines), chat.deadline)))
        case UnreadKey(_, _) =>
          if chat.unread == 0 then None else Some(CountContent(Keyed(chat.unread, chat.deadline)))
        case _ => None
  }

  /** The keys of a valid runtime hold exactly that. */
  lemma ContentIsStored(
    w: World, key: Key,
    hashes: map<ChatRef, Keyed<ConvHash>>, logs: map<ChatRef, Keyed<seq<Line>>>, unreads: map<ChatRef, Keyed<nat>>)
    requires Refines(hashes, logs, unreads, w.chats) && !key.IndexKey?
    ensures
      var ref := ChatRef(key.business, key.conversation);
      && (key.StateKey? ==> ContentAt(w, key) == if ref in hashes then Some(HashContent(hashes[ref])) else None)
      && (key.LogKey? ==> ContentAt(w, key) == if ref in logs then Some(LogContent(logs[ref])) else None)
      && (key.UnreadKey? ==> ContentAt(w, key) == if ref in unreads then Some(CountContent(unreads[ref])) else None)
  {
    hide Recent;
  }

  /** A run of other tenants' operations changes nothing under any text that is the
      text of one of this tenant's keys, even if a conversation id was chosen to
      look like another key. */
  lemma KeyTextsAreLocal(words: Wording, n: Notices, w: World, ops: seq<Op>, other: string, own: Key, key: Key)
    requires forall i :: 0 <= i < |ops| ==> TenantOf(ops[i]).Some? && TenantOf(ops[i]).value != other
    requires own.business == other && ColonFree(other) && ColonFree(key.business)
    requires Render(key) == Render(own)
    ensures ContentAt(Run(words, n, w, ops), key) == ContentAt(w, key)
  {
    hide Run, Recent, Render, ColonFree;
    TenantKeysAreApart(key, own);
    RunIsLocal(words, n, w, ops, other);
  }
}
