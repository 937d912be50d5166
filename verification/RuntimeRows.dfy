/** The rows of the leads table over whole runs: what the owner finds in them. */
module RuntimeRows {
  import opened Wrappers
  import opened BotModel
  import opened BotEngine
  import opened EngineLaws
  import opened ChatKeys
  import opened Conversations
  import opened RuntimeLeads
  import opened RuntimeHandoff

  /** The open lead of a questionnaire holds the answers given so far and the step
      the customer stands on. */
  ghost predicate RowHolds(f: Funnel, saved: Saved) {
    saved.leadId.Some? ==>
      && saved.leadId.value < |f.leads|
      && f.leads[saved.leadId.value].answers == saved.engine.collected
      && f.leads[saved.leadId.value].lastStep == saved.engine.stepIndex
  }

  ghost predicate RowsFollow(w: World) {
    forall ref :: ref in w.chats && w.chats[ref].saved.Some? ==> RowHolds(w.funnel, w.chats[ref].saved.value)
  }

  /** Answers and step of these rows are the same. */
  ghost predicate SameAnswers(f: Funnel, g: Funnel) {
    |f.leads| <= |g.leads| &&
    forall id :: 0 <= id < |f.leads| ==>
      g.leads[id].answers == f.leads[id].answers && g.leads[id].lastStep == f.leads[id].lastStep
  }

  // --- one operation -------------------------------------------------------------------

  lemma AnswerFollows(
    words: Wording, n: Notices, w: World, cfg: Settings, ref: ChatRef, input: Input, link: Option<string>, stale: bool)
    requires LeadsOk(w) && RowsFollow(w)
    ensures RowsFollow(AnswerTurn(words, n, w, cfg, ref, input, link, stale).0)
  {
    hide Advance, RecordTurn, Delivered, LinesOf, Enlist, EventsOk, Extends, WellRecorded;
    var saved := SavedAt(w, ref);
    assert SavedOk(w.funnel, ref, saved);
    RecordTurnLaws(words, n, w.funnel, cfg, ref, w.now, saved, input);
    var t := EngineTurn(words, w, cfg, ref, input);
    if t.state.phase.InFlow? { InFlowShape(words, cfg, saved.engine, input); }
    var w' := AnswerTurn(words, n, w, cfg, ref, input, link, stale).0;
    forall o | o in w'.chats && w'.chats[o].saved.Some? ensures RowHolds(w'.funnel, w'.chats[o].saved.value) {
      if o != ref {
        assert RowHolds(w.funnel, w.chats[o].saved.value);
        assert SavedOk(w.funnel, o, w.chats[o].saved.value);
        if w.chats[o].saved.value.leadId.Some? && ref in w.chats && w.chats[ref].saved.Some? {
          StoredLeadsAreApart(w, o, ref);
        }
      }
    }
  }

  /** An operation that stores no engine state and writes no answers keeps the rows. */
  lemma SameSavedFollows(w: World, w': World)
    requires RowsFollow(w) && SameAnswers(w.funnel, w'.funnel)
    requires forall ref :: ref in w'.chats && w'.chats[ref].saved.Some? ==>
      ref in w.chats && w'.chats[ref].saved == w.chats[ref].saved
    ensures RowsFollow(w')
  {
    forall ref | ref in w'.chats && w'.chats[ref].saved.Some? ensures RowHolds(w'.funnel, w'.chats[ref].saved.value) {
      assert RowHolds(w.funnel, w.chats[ref].saved.value);
    }
  }

  lemma InboundFollows(
    words: Wording, n: Notices, w: World, cfg: Settings, ref: ChatRef, input: Input, link: Option<string>)
    requires LeadsOk(w) && RowsFollow(w)
    ensures RowsFollow(InboundTurn(words, n, w, cfg, ref, input, link).0)
  {
    hide AnswerTurn, LeadsOk, RowsFollow, Forget, SilentTurn;
    ForgetKeepsLeads(w, ref);
    ForgetFollows(w, ref);
    AnswerFollows(words, n, w, cfg, ref, input, link, false);
    AnswerFollows(words, n, Forget(w, ref), cfg, ref, input, link, false);
    AnswerFollows(words, n, Forget(w, ref), cfg, ref, input, link, true);
    SilentFollows(w, ref, input.message);
  }

  lemma ForgetFollows(w: World, ref: ChatRef)
    requires RowsFollow(w)
    ensures RowsFollow(Forget(w, ref))
  {
    SameSavedFollows(w, Forget(w, ref));
  }

  lemma SilentFollows(w: World, ref: ChatRef, message: string)
    requires RowsFollow(w)
    ensures RowsFollow(SilentTurn(w, ref, message))
  {
    hide Newest, Enlist, RowsFollow;
    SameSavedFollows(w, SilentTurn(w, ref, message));
  }

  lemma {:induction false} FlipSameAnswers(f: Funnel, ids: seq<nat>)
    requires forall i :: 0 <= i < |ids| ==> ids[i] < |f.leads|
    ensures SameAnswers(f, Flip(f, ids))
  {
    if ids != [] { FlipSameAnswers(f, ids[..|ids| - 1]); }
  }

  lemma PerformFollows(words: Wording, n: Notices, w: World, op: Op)
    requires LeadsOk(w) && RowsFollow(w)
    ensures RowsFollow(Perform(words, n, w, op))
  {
    hide InboundTurn, StaleSweep, CloseRefs, Flip, IdleLeads, RefsOf, LeadsOk, RowsFollow, Enlist;
    match op
    case Inbound(ref, cfg, input, link) => InboundFollows(words, n, w, cfg, ref, input, link);
    case SweepStale(businesses) =>
      forall ref ensures ref in StaleSweep(n, w, businesses).chats <==> ref in w.chats
        ensures ref in w.chats ==> StaleSweep(n, w, businesses).chats[ref].saved == w.chats[ref].saved
      {
        StaleSweepOn(n, w, businesses, ref);
      }
      StaleSweepKeepsFunnel(n, w, businesses);
      SameSavedFollows(w, StaleSweep(n, w, businesses));
    case SweepAbandoned(demo) =>
      var ids := IdleLeads(w.funnel.leads, w.now, demo, |w.funnel.leads|);
      FlipSameAnswers(w.funnel, ids);
      CloseRefsKeepsFunnel(w.(funnel := Flip(w.funnel, ids)), RefsOf(w.funnel, ids));
      forall ref
        ensures ref in AbandonedSweep(w, demo).chats && AbandonedSweep(w, demo).chats[ref].saved.Some? ==>
          ref in w.chats && AbandonedSweep(w, demo).chats[ref].saved == w.chats[ref].saved
      {
        AbandonedKeepsSaved(w, demo, ref);
      }
      SameSavedFollows(w, AbandonedSweep(w, demo));
    case _ => SameSavedFollows(w, Perform(words, n, w, op));
  }

  /** After every operation of every run the open lead of each questionnaire holds
      exactly the answers stored for the chat and the step it stands on. */
  lemma {:induction false} RowsFollowStates(words: Wording, n: Notices, ops: seq<Op>)
    ensures RowsFollow(Run(words, n, START, ops))
  {
    hide Perform, LeadsOk;
    if ops == [] {
      assert Run(words, n, START, ops) == START;
    } else {
      RowsFollowStates(words, n, ops[..|ops| - 1]);
      LifecycleHolds(words, n, ops[..|ops| - 1]);
      PerformFollows(words, n, Run(words, n, START, ops[..|ops| - 1]), ops[|ops| - 1]);
    }
  }

  // --- the newest lead and its clock ------------------------------------------------------

  ghost predicate OwnRow(lead: Lead, ref: ChatRef) {
    lead.business == ref.business && lead.chatRef == ChatRefText(ref.business, ref.conversation)
  }

  /** The newest lead is one of the chat's own, none of them is more recent, and of
      equally recent ones it is the last; there is none only if the chat has none. */
  lemma {:induction false} NewestIs(leads: seq<Lead>, ref: ChatRef)
    ensures Newest(leads, ref).None? <==> forall i :: 0 <= i < |leads| ==> !OwnRow(leads[i], ref)
    ensures Newest(leads, ref).Some? ==>
      var id := Newest(leads, ref).value;
      && OwnRow(leads[id], ref)
      && (forall i :: 0 <= i < |leads| && OwnRow(leads[i], ref) ==> leads[i].lastActivity <= leads[id].lastActivity)
      && (forall i :: id < i < |leads| && OwnRow(leads[i], ref) ==> leads[i].lastActivity < leads[id].lastActivity)
  {
    hide ChatRefText;
    if leads != [] {
      var (front, last) := (leads[..|leads| - 1], leads[|leads| - 1]);
      NewestIs(front, ref);
      assert forall i :: 0 <= i < |front| ==> front[i] == leads[i];
      assert OwnRow(last, ref) <==>
        last.business == ref.business && last.chatRef == ChatRefText(ref.business, ref.conversation);
    }
  }

  /** A message kept for a human sets the clock of the chat's newest lead to now and
      changes nothing else of any row. */
  lemma SilentTurnMovesOneClock(w: World, ref: ChatRef, message: string, id: nat)
    requires id < |w.funnel.leads|
    ensures
      var w' := SilentTurn(w, ref, message);
      && |w'.funnel.leads| == |w.funnel.leads| && w'.funnel.events == w.funnel.events
      && w'.funnel.leads[id] ==
           if Newest(w.funnel.leads, ref) == Some(id) then w.funnel.leads[id].(lastActivity := w.now)
           else w.funnel.leads[id]
  {
    hide Newest, Enlist, ChatRefText;
    NewestIs(w.funnel.leads, ref);
  }
}
