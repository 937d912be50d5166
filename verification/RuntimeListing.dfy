/** Which live chats a tenant's index still lists, and so which of them the stale
    sweep and the owner's list can reach. */
module RuntimeListing {
  import opened Wrappers
  import opened BotModel
  import opened BotEngine
  import opened Conversations
  import opened RuntimeTimes
  import opened RuntimeHandoff

  /** The operations that store a chat and so put it on its tenant's index. */
  ghost predicate Settles(w: World, op: Op, ref: ChatRef) {
    match op
    case Inbound(r, _, _, _) => r == ref
    case Reply(r, _) => r == ref
    case WriteStatus(r, _) => r == ref
    case SweepAbandoned(demo) => HasIdleLead(w, demo, ref)
    case _ => false
  }

  /** The tenant's index is there after the operation if it was before: only time
      takes it away. */
  ghost predicate IndexLives(w: World, op: Op, business: string) {
    op.Wait? ==> business in w.index && Alive(w.now + op.seconds, w.index[business].deadline)
  }

  // --- one operation --------------------------------------------------------------

  lemma {:induction false} StaleSweepLists(n: Notices, w: World, businesses: seq<string>, ref: ChatRef)
    requires ref in w.chats
    ensures Listed(StaleSweep(n, w, businesses), ref) <==> Listed(w, ref)
  {
    if businesses != [] {
      var front := businesses[..|businesses| - 1];
      StaleSweepLists(n, w, front, ref);
      StaleSweepOn(n, w, front, ref);
      StaleSweepOneLists(n, StaleSweep(n, w, front), businesses[|businesses| - 1], ref);
    }
  }

  lemma StaleSweepOneLists(n: Notices, w: World, business: string, ref: ChatRef)
    requires ref in w.chats
    ensures Listed(StaleSweepOne(n, w, business), ref) <==> Listed(w, ref)
  {
    if business in w.index && ref.business == business && Listed(w, ref) {
      assert ref == ChatRef(business, ref.conversation);
      assert ref.conversation !in Missing(w, business);
      assert ref.conversation in w.index[business].members - Missing(w, business);
    }
  }

  lemma {:induction false} CloseRefsLists(w: World, refs: seq<string>, ref: ChatRef)
    ensures Listed(CloseRefs(w, refs), ref) <==> Listed(w, ref) || Points(refs, ref)
  {
    if refs != [] {
      CloseRefsLists(w, refs[..|refs| - 1], ref);
      PointsLast(refs, ref);
    }
  }

  lemma AnswerLists(
    words: Wording, n: Notices, w: World, cfg: Settings, r: ChatRef, input: Input, link: Option<string>, stale: bool,
    ref: ChatRef)
    ensures
      var w' := AnswerTurn(words, n, w, cfg, r, input, link, stale).0;
      && (Listed(w', ref) <==> r == ref || Listed(w, ref))
      && (ref in w'.chats <==> r == ref || ref in w.chats)
  {
    hide EngineTurn, RecordTurn, AnsweredChat, Delivered, SavedAt, DeadlineOf;
  }

  lemma ForgetLists(w: World, r: ChatRef, ref: ChatRef)
    requires r != ref
    ensures Listed(Forget(w, r), ref) <==> Listed(w, ref)
    ensures ref in Forget(w, r).chats <==> ref in w.chats
  {
    if r.business == ref.business && Listed(w, ref) {
      assert ref.conversation in w.index[ref.business].members - {r.conversation};
    }
  }

  lemma InboundLists(
    words: Wording, n: Notices, w: World, cfg: Settings, r: ChatRef, input: Input, link: Option<string>, ref: ChatRef)
    ensures
      var w' := InboundTurn(words, n, w, cfg, r, input, link).0;
      && (Listed(w', ref) <==> r == ref || Listed(w, ref))
      && (ref in w'.chats <==> r == ref || ref in w.chats)
  {
    hide AnswerTurn, Forget, Newest, Update, DeadlineOf;
    AnswerLists(words, n, w, cfg, r, input, link, false, ref);
    AnswerLists(words, n, Forget(w, r), cfg, r, input, link, false, ref);
    AnswerLists(words, n, Forget(w, r), cfg, r, input, link, true, ref);
    if r != ref { ForgetLists(w, r, ref); }
  }

  lemma AbandonedSweepLists(w: World, demo: set<string>, ref: ChatRef)
    requires Named(ref)
    ensures Listed(AbandonedSweep(w, demo), ref) <==> Listed(w, ref) || HasIdleLead(w, demo, ref)
  {
    hide IdleLeads, RefsOf, Flip, CloseRefs, HasIdleLead, Points;
    var ids := IdleLeads(w.funnel.leads, w.now, demo, |w.funnel.leads|);
    CloseRefsLists(w.(funnel := Flip(w.funnel, ids)), RefsOf(w.funnel, ids), ref);
    IdleLeadsPoint(w, demo, ref);
  }

  /** After an operation a live chat is listed exactly when the operation stored
      it, or it was listed and the index has not expired. */
  lemma ListedAfter(words: Wording, n: Notices, w: World, op: Op, ref: ChatRef)
    requires Named(ref) && ref in w.chats
    ensures Listed(Perform(words, n, w, op), ref) <==>
      Settles(w, op, ref) || (Listed(w, ref) && IndexLives(w, op, ref.business))
  {
    hide InboundTurn, StaleSweep, AbandonedSweep, HasIdleLead, Update, DeadlineOf;
    match op
    case Inbound(r, cfg, input, link) => InboundLists(words, n, w, cfg, r, input, link, ref);
    case SweepStale(businesses) => StaleSweepLists(n, w, businesses, ref);
    case SweepAbandoned(demo) => AbandonedSweepLists(w, demo, ref);
    case _ =>
  }

  /** Storing lists a chat, and nothing else brings one into being. */
  lemma StoringLists(words: Wording, n: Notices, w: World, op: Op, ref: ChatRef)
    requires Named(ref)
    ensures Settles(w, op, ref) ==> Listed(Perform(words, n, w, op), ref)
    ensures ref in Perform(words, n, w, op).chats ==> Settles(w, op, ref) || ref in w.chats
  {
    hide InboundTurn, StaleSweep, AbandonedSweep, HasIdleLead, Update, DeadlineOf;
    match op
    case Inbound(r, cfg, input, link) => InboundLists(words, n, w, cfg, r, input, link, ref);
    case SweepStale(businesses) => StaleSweepOn(n, w, businesses, ref);
    case SweepAbandoned(demo) =>
      AbandonedSweepLists(w, demo, ref);
      AbandonedSweepOn(w, demo, ref);
    case _ =>
  }

  // --- runs -------------------------------------------------------------------------

  /** Operation `k` of the run stored the chat, and the tenant's index has not
      expired since. */
  ghost predicate ListedSince(words: Wording, n: Notices, ops: seq<Op>, ref: ChatRef, k: nat) {
    && k < |ops| && Settles(Run(words, n, START, ops[..k]), ops[k], ref)
    && forall j :: k < j < |ops| ==> IndexLives(Run(words, n, START, ops[..j]), ops[j], ref.business)
  }

  lemma ListedSinceFront(words: Wording, n: Notices, ops: seq<Op>, ref: ChatRef, k: nat)
    requires ops != []
    ensures
      var front := ops[..|ops| - 1];
      var last := ops[|ops| - 1];
      ListedSince(words, n, ops, ref, k) <==>
        if k == |front| then Settles(Run(words, n, START, front), last, ref)
        else ListedSince(words, n, front, ref, k) && IndexLives(Run(words, n, START, front), last, ref.business)
    ensures ListedSince(words, n, ops[..|ops| - 1], ref, k) ==> k < |ops| - 1
  {
    hide Run, Settles, IndexLives;
    var front := ops[..|ops| - 1];
    assert forall j: nat :: j <= |front| ==> ops[..j] == front[..j];
    assert front[..|front|] == front;
  }

  /** In every run a live chat is listed exactly when its tenant's index has not
      expired since some operation stored the chat. */
  lemma {:induction false} ListedExactlyWhen(words: Wording, n: Notices, ops: seq<Op>, ref: ChatRef)
    requires Named(ref) && ref in Run(words, n, START, ops).chats
    ensures Listed(Run(words, n, START, ops), ref) <==> exists k :: ListedSince(words, n, ops, ref, k)
  {
    hide Perform, Settles, IndexLives, ListedSince, Listed;
    assert ops != [];
    var (front, last) := (ops[..|ops| - 1], ops[|ops| - 1]);
    var w := Run(words, n, START, front);
    StoringLists(words, n, w, last, ref);
    ListedSinceFront(words, n, ops, ref, |front|);
    if !Settles(w, last, ref) {
      ListedAfter(words, n, w, last, ref);
      ListedExactlyWhen(words, n, front, ref);
      if k :| ListedSince(words, n, front, ref, k) { ListedSinceFront(words, n, ops, ref, k); }
      if k :| ListedSince(words, n, ops, ref, k) {
        ListedSinceFront(words, n, ops, ref, k);
      }
    }
  }

  /** So the stale sweep passes a chat by, however idle, exactly when its index has
      expired since every operation that stored it, or its tenant is not swept. */
  lemma SweepReachesExactlyWhen(words: Wording, n: Notices, ops: seq<Op>, businesses: seq<string>, ref: ChatRef)
    requires
      var w := Run(words, n, START, ops);
      Named(ref) && ref in w.chats && w.chats[ref].status != Some(Closed) && Idle(w, ref)
    ensures
      var w := Run(words, n, START, ops);
      var after := StaleSweep(n, w, businesses);
      ref in after.chats &&
      (after.chats[ref].status == Some(Closed) <==>
         ref.business in businesses && exists k :: ListedSince(words, n, ops, ref, k))
  {
    hide Run, StaleSweep, ListedSince;
    ListedExactlyWhen(words, n, ops, ref);
    StaleSweepOn(n, Run(words, n, START, ops), businesses, ref);
  }
}
