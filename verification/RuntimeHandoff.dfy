/** Handoff means silence: what keeps the bot quiet, and exactly what ends it. */
module RuntimeHandoff {
  import opened Wrappers
  import opened BotModel
  import opened BotEngine
  import opened EngineLaws
  import opened ChatKeys
  import opened Conversations

  // --- silence --------------------------------------------------------------------

  /** While a human is on the chat and it is not idle, a message gets no reply,
      leaves the engine state and lead alone and only moves the leads' clock; the
      message itself is kept and counted. */
  lemma SilenceWhileHuman(
    words: Wording, n: Notices, w: World, cfg: Settings, ref: ChatRef, input: Input, link: Option<string>)
    requires HumanOn(w, ref) && !Idle(w, ref)
    ensures
      var (w', result) := InboundTurn(words, n, w, cfg, ref, input, link);
      && result.replies == [] && result.silent && result.event.NoEvent?
      && ref in w'.chats && w'.chats[ref].saved == w.chats[ref].saved && w'.chats[ref].status == w.chats[ref].status
      && w'.chats[ref].lines == w.chats[ref].lines + [Line(Customer, input.message)]
      && w'.chats[ref].unread == w.chats[ref].unread + 1
      && w'.chats[ref].lastActivity == w.now
      && w'.funnel.events == w.funnel.events
      && |w'.funnel.leads| == |w.funnel.leads|
      && (forall id :: 0 <= id < |w.funnel.leads| ==>
            w'.funnel.leads[id].(lastActivity := 0) == w.funnel.leads[id].(lastActivity := 0))
  {
    hide Newest;
  }

  /** A chat asked for a human; after the turn it waits for one. */
  lemma HandoffTurnLeavesChatWaiting(
    words: Wording, n: Notices, w: World, cfg: Settings, ref: ChatRef, input: Input, link: Option<string>)
    requires InboundTurn(words, n, w, cfg, ref, input, link).1.event.HandoffRequested?
    ensures
      var (w', result) := InboundTurn(words, n, w, cfg, ref, input, link);
      && HumanOn(w', ref) && !Idle(w', ref)
      && w'.chats[ref].status == Some(Waiting)
      && w'.chats[ref].saved == Some(Saved(HANDED_OFF_STATE, None))
      && |result.replies| >= 1 && result.leadId.Some?
  {
    hide AnswerTurn, SilentTurn;
    FreshTurnGreets(words, cfg, input);
    AnswerAsksForHuman(words, n, w, cfg, ref, input, link, false);
    AnswerAsksForHuman(words, n, Forget(w, ref), cfg, ref, input, link, false);
    AnswerAsksForHuman(words, n, Forget(w, ref), cfg, ref, input, link, true);
  }

  lemma AnswerAsksForHuman(
    words: Wording, n: Notices, w: World, cfg: Settings, ref: ChatRef, input: Input, link: Option<string>, stale: bool)
    ensures
      var (w', result) := AnswerTurn(words, n, w, cfg, ref, input, link, stale);
      result.event.HandoffRequested? ==>
      && ref in w'.chats
      && w'.chats[ref].status == Some(Waiting)
      && w'.chats[ref].saved == Some(Saved(HANDED_OFF_STATE, None))
      && w'.chats[ref].lastActivity == w'.now
      && |result.replies| >= 1 && result.leadId.Some?
  {
    hide Advance, LinesOf, RecordProgress, Relinked, Enlist;
    TurnShape(words, cfg, SavedAt(w, ref).engine, input);
  }

  // --- what one sweep does to one chat -------------------------------------------------

  lemma StaleSweepOneOn(n: Notices, w: World, business: string, ref: ChatRef)
    ensures ref in w.chats <==> ref in StaleSweepOne(n, w, business).chats
    ensures ref in w.chats ==>
      StaleSweepOne(n, w, business).chats[ref]
        == if ref.business == business && StaleClosable(w, ref) then ClosedNow(w, w.chats[ref], n.staleClosing)
          else w.chats[ref]
    ensures StaleClosable(StaleSweepOne(n, w, business), ref) <==> business != ref.business && StaleClosable(w, ref)
    ensures StaleSweepOne(n, w, business).now == w.now && StaleSweepOne(n, w, business).funnel == w.funnel
  {
  }

  /** The stale sweep closes a chat exactly when its tenant is swept and the chat
      is listed, still open and idle for over an hour; it changes no other chat. */
  lemma {:induction false} StaleSweepOn(n: Notices, w: World, businesses: seq<string>, ref: ChatRef)
    ensures ref in w.chats <==> ref in StaleSweep(n, w, businesses).chats
    ensures ref in w.chats ==>
      StaleSweep(n, w, businesses).chats[ref]
        == if ref.business in businesses && StaleClosable(w, ref) then ClosedNow(w, w.chats[ref], n.staleClosing)
          else w.chats[ref]
    ensures StaleClosable(StaleSweep(n, w, businesses), ref) <==> ref.business !in businesses && StaleClosable(w, ref)
    ensures StaleSweep(n, w, businesses).now == w.now && StaleSweep(n, w, businesses).funnel == w.funnel
  {
    if businesses != [] {
      var (front, last) := (businesses[..|businesses| - 1], businesses[|businesses| - 1]);
      assert businesses == front + [last];
      var before := StaleSweep(n, w, front);
      StaleSweepOn(n, w, front, ref);
      StaleSweepOneOn(n, before, last, ref);
      assert ref.business in businesses <==> ref.business in front || ref.business == last;
    }
  }

  /** Some text in the list is this chat's reference. */
  ghost predicate Points(refs: seq<string>, ref: ChatRef) {
    exists i :: 0 <= i < |refs| && SplitChatRef(refs[i]) == Some((ref.business, ref.conversation))
  }

  lemma {:induction false} CloseRefsOn(w: World, refs: seq<string>, ref: ChatRef)
    ensures !Points(refs, ref) ==>
      (ref in CloseRefs(w, refs).chats <==> ref in w.chats) &&
      (ref in w.chats ==> CloseRefs(w, refs).chats[ref] == w.chats[ref])
    ensures Points(refs, ref) ==>
      ref in CloseRefs(w, refs).chats && CloseRefs(w, refs).chats[ref].status == Some(Closed) &&
      CloseRefs(w, refs).chats[ref].lines == ChatAt(w, ref).lines &&
        CloseRefs(w, refs).chats[ref].unread == ChatAt(w, ref).unread
    ensures CloseRefs(w, refs).now == w.now && CloseRefs(w, refs).funnel == w.funnel
  {
    if refs != [] {
      var (front, last) := (refs[..|refs| - 1], refs[|refs| - 1]);
      CloseRefsOn(w, front, ref);
      PointsLast(refs, ref);
    }
  }

  lemma PointsLast(refs: seq<string>, ref: ChatRef)
    requires refs != []
    ensures Points(refs, ref) <==>
      Points(refs[..|refs| - 1], ref) || SplitChatRef(refs[|refs| - 1]) == Some((ref.business, ref.conversation))
  {
    var front := refs[..|refs| - 1];
    if Points(front, ref) {
      var i :| 0 <= i < |front| && SplitChatRef(front[i]) == Some((ref.business, ref.conversation));
      assert refs[i] == front[i];
    }
    if Points(refs, ref) {
      var i :| 0 <= i < |refs| && SplitChatRef(refs[i]) == Some((ref.business, ref.conversation));
      assert i < |front| ==> front[i] == refs[i];
    }
  }

  lemma {:induction false} IdleLeadsAre(leads: seq<Lead>, now: int, demo: set<string>, bound: nat, id: nat)
    requires bound <= |leads|
    ensures id in IdleLeads(leads, now, demo, bound) <==> id < bound && IdleLead(leads, now, demo, id)
  {
    if bound > 0 { IdleLeadsAre(leads, now, demo, bound - 1, id); }
  }

  lemma {:induction false} RefsAt(f: Funnel, ids: seq<nat>)
    requires forall i :: 0 <= i < |ids| ==> ids[i] < |f.leads|
    ensures |RefsOf(f, ids)| == |ids|
    ensures forall i :: 0 <= i < |ids| ==> RefsOf(f, ids)[i] == f.leads[ids[i]].chatRef
  {
    if ids != [] { RefsAt(f, ids[..|ids| - 1]); }
  }

  /** The reference of a well-named chat. */
  ghost predicate Named(ref: ChatRef) {
    ColonFree(ref.business) && ref.business != "" && ref.conversation != ""
  }

  /** An in-progress lead of this chat has been idle for over an hour. */
  ghost predicate HasIdleLead(w: World, demo: set<string>, ref: ChatRef) {
    exists id :: 0 <= id < |w.funnel.leads| && IdleLead(w.funnel.leads, w.now, demo, id)
      && w.funnel.leads[id].chatRef == ChatRefText(ref.business, ref.conversation)
  }

  /** The flipped rows point at a chat exactly when it has an idle lead. */
  lemma IdleLeadsPoint(w: World, demo: set<string>, ref: ChatRef)
    requires Named(ref)
    ensures Points(RefsOf(w.funnel, IdleLeads(w.funnel.leads, w.now, demo, |w.funnel.leads|)), ref)
      <==> HasIdleLead(w, demo, ref)
  {
    hide IdleLeads, RefsOf, IdleLead;
    var ids := IdleLeads(w.funnel.leads, w.now, demo, |w.funnel.leads|);
    var refs := RefsOf(w.funnel, ids);
    RefsAt(w.funnel, ids);
    if HasIdleLead(w, demo, ref) {
      var id :| 0 <= id < |w.funnel.leads| && IdleLead(w.funnel.leads, w.now, demo, id)
        && w.funnel.leads[id].chatRef == ChatRefText(ref.business, ref.conversation);
      IdleLeadsAre(w.funnel.leads, w.now, demo, |w.funnel.leads|, id);
      var i :| 0 <= i < |ids| && ids[i] == id;
      SplitInvertsChatRef(refs[i], ref.business, ref.conversation);
    }
    if Points(refs, ref) {
      var i :| 0 <= i < |refs| && SplitChatRef(refs[i]) == Some((ref.business, ref.conversation));
      SplitInvertsChatRef(refs[i], ref.business, ref.conversation);
      IdleLeadsAre(w.funnel.leads, w.now, demo, |w.funnel.leads|, ids[i]);
    }
  }

  /** The abandoned sweep closes a chat exactly when one of the chat's in-progress
      leads is idle, however active the chat itself is. */
  lemma AbandonedSweepOn(w: World, demo: set<string>, ref: ChatRef)
    requires Named(ref)
    ensures HasIdleLead(w, demo, ref) ==>
      ref in AbandonedSweep(w, demo).chats && AbandonedSweep(w, demo).chats[ref].status == Some(Closed)
    ensures !HasIdleLead(w, demo, ref) ==>
      (ref in AbandonedSweep(w, demo).chats <==> ref in w.chats) &&
      (ref in w.chats ==> AbandonedSweep(w, demo).chats[ref] == w.chats[ref])
    ensures AbandonedSweep(w, demo).now == w.now
  {
    hide IdleLeads, RefsOf, Flip, CloseRefs, HasIdleLead;
    var ids := IdleLeads(w.funnel.leads, w.now, demo, |w.funnel.leads|);
    CloseRefsOn(w.(funnel := Flip(w.funnel, ids)), RefsOf(w.funnel, ids), ref);
    IdleLeadsPoint(w, demo, ref);
  }

  // --- what ends a handoff ------------------------------------------------------------------

  /** The operations that end a handoff: the owner releases or closes the chat,
      the customer writes again after an idle hour, a sweep finds the chat idle,
      or one of the chat's leads is. */
  ghost predicate EndsHandoff(w: World, op: Op, ref: ChatRef) {
    match op
    case WriteStatus(r, status) => r == ref && (status == Bot || status == Closed)
    case Inbound(r, _, _, _) => r == ref && Idle(w, ref)
    case SweepStale(businesses) => ref.business in businesses && StaleClosable(w, ref)
    case SweepAbandoned(demo) => HasIdleLead(w, demo, ref)
    case _ => false
  }

  /** A chat with a human stays with the human exactly until one of those. */
  lemma HandoffEndsOnlyBy(words: Wording, n: Notices, w: World, op: Op, ref: ChatRef)
    requires HumanOn(w, ref) && w.chats[ref].deadline.None? && Named(ref)
    ensures HumanOn(Perform(words, n, w, op), ref) <==> !EndsHandoff(w, op, ref)
    ensures HumanOn(Perform(words, n, w, op), ref) ==>
      Perform(words, n, w, op).chats[ref].saved == w.chats[ref].saved &&
        Perform(words, n, w, op).chats[ref].deadline.None?
  {
    hide StaleSweep, AbandonedSweep, InboundTurn, StaleClosable, Update;
    match op
    case Inbound(r, cfg, input, link) => InboundOnHuman(words, n, w, cfg, r, input, link, ref);
    case SweepStale(businesses) => StaleSweepOn(n, w, businesses, ref);
    case SweepAbandoned(demo) => AbandonedSweepOn(w, demo, ref);
    case _ =>
  }

  lemma InboundOnHuman(
    words: Wording, n: Notices, w: World, cfg: Settings, r: ChatRef, input: Input, link: Option<string>, ref: ChatRef)
    requires HumanOn(w, ref) && w.chats[ref].deadline.None?
    ensures var w' := InboundTurn(words, n, w, cfg, r, input, link).0;
      && (HumanOn(w', ref) <==> !(r == ref && Idle(w, ref)))
      && (HumanOn(w', ref) ==> w'.chats[ref].saved == w.chats[ref].saved && w'.chats[ref].deadline.None?)
  {
    hide Advance, LinesOf, RecordTurn, Newest, Delivered, Update;
    TurnShape(words, cfg, INITIAL_STATE, input);
    FreshTurnGreets(words, cfg, input);
  }

  /** The first turn of a conversation greets and raises nothing. */
  lemma FreshTurnGreets(words: Wording, cfg: Settings, input: Input)
    ensures Advance(words, cfg, INITIAL_STATE, input).state == MENU_STATE
    ensures Advance(words, cfg, INITIAL_STATE, input).event.NoEvent?
  {
  }

  /** Every message is answered once, except that a message kept for a human gets
      no reply and one that revives an idle handoff gets the closing notice first. */
  lemma RepliesPerMessage(
    words: Wording, n: Notices, w: World, cfg: Settings, ref: ChatRef, input: Input, link: Option<string>)
    ensures
      var result := InboundTurn(words, n, w, cfg, ref, input, link).1;
      && (HumanOn(w, ref) && !Idle(w, ref) ==> result.replies == [])
      && (HumanOn(w, ref) && Idle(w, ref) ==> |result.replies| == 2 && result.replies[0] == n.staleClosing)
      && (!HumanOn(w, ref) ==> |result.replies| == 1)
      && (HumanOn(w, ref) || (ref in w.chats && w.chats[ref].status == Some(Closed)) ==> result.event.NoEvent?)
  {
    hide Advance, SilentTurn, Settle, RecordTurn, Relinked;
    FreshTurnGreets(words, cfg, input);
    TurnShape(words, cfg, INITIAL_STATE, input);
    TurnShape(words, cfg, SavedAt(w, ref).engine, input);
    RelinkedLength(words, EngineTurn(words, w, cfg, ref, input), link);
  }

  lemma RelinkedLength(words: Wording, t: Turn, link: Option<string>)
    requires |t.replies| == 1
    ensures link.Some? && words.demoLink != "" ==> |Relinked([] + t.replies, words.demoLink, link.value)| == 1
  {
    assert [] + t.replies == t.replies;
    assert t.replies[1..] == [];
  }

  /** No operation of the run ends the handoff. */
  ghost predicate HandoffUninterrupted(words: Wording, n: Notices, w: World, ops: seq<Op>, ref: ChatRef) {
    ops == [] ||
    (HandoffUninterrupted(words, n, w, ops[..|ops| - 1], ref) &&
     !EndsHandoff(Run(words, n, w, ops[..|ops| - 1]), ops[|ops| - 1], ref))
  }

  /** Over a whole run in which nothing ends the handoff, the engine state of the
      chat never moves, and the next message is met with silence too unless the
      chat has been idle for over an hour. */
  lemma {:induction false} SilenceLasts(words: Wording, n: Notices, w: World, ops: seq<Op>, ref: ChatRef)
    requires HumanOn(w, ref) && w.chats[ref].deadline.None? && Named(ref)
    requires HandoffUninterrupted(words, n, w, ops, ref)
    ensures
      var end := Run(words, n, w, ops);
      && HumanOn(end, ref) && end.chats[ref].deadline.None?
      && end.chats[ref].saved == w.chats[ref].saved
    ensures
      var end := Run(words, n, w, ops);
      forall cfg, input, link :: !Idle(end, ref) ==> InboundTurn(words, n, end, cfg, ref, input, link).1.replies == []
  {
    hide InboundTurn, Perform;
    if ops != [] {
      SilenceLasts(words, n, w, ops[..|ops| - 1], ref);
      HandoffEndsOnlyBy(words, n, Run(words, n, w, ops[..|ops| - 1]), ops[|ops| - 1], ref);
    }
    var end := Run(words, n, w, ops);
    forall cfg, input, link | !Idle(end, ref)
      ensures InboundTurn(words, n, end, cfg, ref, input, link).1.replies == []
    {
      SilenceWhileHuman(words, n, end, cfg, ref, input, link);
    }
  }

  /** An older open lead closes a chat a human is busy with: only the newest
      lead's clock follows the conversation. */
  lemma OlderLeadClosesBusyChat(w: World, demo: set<string>, ref: ChatRef, older: nat, newest: nat, message: string)
    requires Named(ref) && ref.business !in demo && HumanOn(w, ref) && !Idle(w, ref)
    requires older < |w.funnel.leads| && Newest(w.funnel.leads, ref) == Some(newest) && newest != older
    requires w.funnel.leads[older].business == ref.business
    requires w.funnel.leads[older].chatRef == ChatRefText(ref.business, ref.conversation)
    requires w.funnel.leads[older].status.InProgress?
    requires w.funnel.leads[older].lastActivity < w.now - 3600
    ensures
      var heard := SilentTurn(w, ref, message);
      HumanOn(heard, ref) && heard.chats[ref].lastActivity == w.now &&
      AbandonedSweep(heard, demo).chats.Keys >= {ref} &&
      AbandonedSweep(heard, demo).chats[ref].status == Some(Closed)
  {
    hide AbandonedSweep;
    var heard := SilentTurn(w, ref, message);
    assert heard.funnel.leads[older] == w.funnel.leads[older];
    assert IdleLead(heard.funnel.leads, heard.now, demo, older);
    AbandonedSweepOn(heard, demo, ref);
  }

  // --- the engine never leaves a handoff on its own -------------------------------------------

  /** A handed-off engine state is kept away from the engine by the chat's status. */
  ghost predicate HandoffKept(w: World, ref: ChatRef) {
    ref in w.chats && w.chats[ref].saved.Some? && w.chats[ref].saved.value.engine.phase.HandedOff? ==>
      w.chats[ref].status == Some(Waiting) || w.chats[ref].status == Some(Human) || w.chats[ref].status == Some(Closed)
  }

  /** The state the engine is run on for the next message, if it is run at all. */
  function Consulted(w: World, ref: ChatRef): Option<State> {
    if HumanOn(w, ref) then (if Idle(w, ref) then Some(INITIAL_STATE) else None)
    else if ref in w.chats && w.chats[ref].status == Some(Closed) then Some(INITIAL_STATE)
    else Some(SavedAt(w, ref).engine)
  }

  lemma InboundKeepsHandoff(
    words: Wording, n: Notices, w: World, cfg: Settings, r: ChatRef, input: Input, link: Option<string>, ref: ChatRef)
    requires HandoffKept(w, ref)
    ensures HandoffKept(InboundTurn(words, n, w, cfg, r, input, link).0, ref)
  {
    hide Advance, LinesOf, RecordTurn, Newest, Delivered, Update;
    FreshTurnGreets(words, cfg, input);
    TurnShape(words, cfg, SavedAt(w, r).engine, input);
  }

  lemma PerformKeepsHandoff(words: Wording, n: Notices, w: World, op: Op, ref: ChatRef)
    requires HandoffKept(w, ref) && Named(ref)
    requires op != WriteStatus(ref, Bot)
    ensures HandoffKept(Perform(words, n, w, op), ref)
  {
    hide StaleSweep, AbandonedSweep, InboundTurn, StaleClosable, Update;
    match op
    case Inbound(r, cfg, input, link) => InboundKeepsHandoff(words, n, w, cfg, r, input, link, ref);
    case SweepStale(businesses) => StaleSweepOn(n, w, businesses, ref);
    case SweepAbandoned(demo) => AbandonedSweepOn(w, demo, ref);
    case WriteStatus(r, status) => assert status.Bot? || status.Waiting? || status.Human? || status.Closed?;
    case _ =>
  }

  /** In every run in which the owner never hands the chat back to the bot, the
      engine is never run from the handed-off phase. */
  lemma {:induction false} EngineNeverLeavesHandoff(words: Wording, n: Notices, ops: seq<Op>, ref: ChatRef)
    requires Named(ref) && WriteStatus(ref, Bot) !in ops
    ensures HandoffKept(Run(words, n, START, ops), ref)
    ensures var consulted := Consulted(Run(words, n, START, ops), ref);
      consulted.Some? ==> !consulted.value.phase.HandedOff?
  {
    hide Perform;
    if ops != [] {
      assert ops == ops[..|ops| - 1] + [ops[|ops| - 1]];
      EngineNeverLeavesHandoff(words, n, ops[..|ops| - 1], ref);
      PerformKeepsHandoff(words, n, Run(words, n, START, ops[..|ops| - 1]), ops[|ops| - 1], ref);
    }
  }

  /** Handing a waiting chat back to the bot does run it from there: it answers
      every non-blank message with the handoff notice and never leaves. */
  lemma HandedBackChatIsStuck(
    words: Wording, n: Notices, w: World, cfg: Settings, ref: ChatRef, input: Input, link: Option<string>)
    requires HumanOn(w, ref) && w.chats[ref].saved == Some(Saved(HANDED_OFF_STATE, None)) && !IsBlank(input)
    ensures
      var (w', result) := InboundTurn(words, n, SetStatus(w, ref, Bot), cfg, ref, input, link);
      && result.replies == [words.handedOffNote]
      && w'.chats[ref].saved == Some(Saved(HANDED_OFF_STATE, None)) && w'.chats[ref].status == Some(Bot)
  {
    hide Advance, RecordEvent, RecordProgress, LinesOf;
    PausedChat(words, cfg, HANDED_OFF_STATE, input);
  }

  // --- reachable engine states -------------------------------------------------------------------

  ghost predicate EnginesOk(w: World, business: string, cfg: Settings) {
    forall ref :: ref in w.chats && ref.business == business && w.chats[ref].saved.Some? ==>
      Consistent(cfg, w.chats[ref].saved.value.engine)
  }

  /** The tenant's messages all meet the same configuration. */
  predicate FixedConfig(op: Op, business: string, cfg: Settings) {
    op.Inbound? && op.ref.business == business ==> op.cfg == cfg
  }

  lemma PerformKeepsEngines(words: Wording, n: Notices, w: World, op: Op, business: string, cfg: Settings)
    requires EnginesOk(w, business, cfg) && FixedConfig(op, business, cfg) && WellFormed(cfg)
    ensures EnginesOk(Perform(words, n, w, op), business, cfg)
  {
    hide InboundTurn, StaleSweep, AbandonedSweep, Consistent, Update;
    var w' := Perform(words, n, w, op);
    if op.Inbound? {
      InboundKeepsEngines(words, n, w, op.cfg, op.ref, op.input, op.link, business, cfg);
    } else {
      forall ref | ref in w'.chats && ref.business == business && w'.chats[ref].saved.Some?
        ensures Consistent(cfg, w'.chats[ref].saved.value.engine)
      {
        if op.SweepStale? { StaleSweepOn(n, w, op.businesses, ref); }
        if op.SweepAbandoned? { AbandonedKeepsSaved(w, op.demo, ref); }
      }
    }
  }

  lemma InboundKeepsEngines(
    words: Wording, n: Notices, w: World, own: Settings, r: ChatRef, input: Input, link: Option<string>,
    business: string, cfg: Settings)
    requires EnginesOk(w, business, cfg) && WellFormed(cfg) && (r.business == business ==> own == cfg)
    ensures EnginesOk(InboundTurn(words, n, w, own, r, input, link).0, business, cfg)
  {
    hide AnswerTurn, Consistent, Newest, Update;
    AnswerKeepsEngines(words, n, w, own, r, input, link, false, business, cfg);
    AnswerKeepsEngines(words, n, Forget(w, r), own, r, input, link, false, business, cfg);
    AnswerKeepsEngines(words, n, Forget(w, r), own, r, input, link, true, business, cfg);
  }

  lemma AnswerKeepsEngines(
    words: Wording, n: Notices, w: World, own: Settings, r: ChatRef, input: Input, link: Option<string>, stale: bool,
    business: string, cfg: Settings)
    requires EnginesOk(w, business, cfg) && WellFormed(cfg) && (r.business == business ==> own == cfg)
    ensures EnginesOk(AnswerTurn(words, n, w, own, r, input, link, stale).0, business, cfg)
  {
    hide Advance, Consistent, RecordTurn, LinesOf, Delivered;
    if r.business == business {
      ConsistentAt(w, r, cfg);
      TurnKeepsConsistent(words, cfg, SavedAt(w, r).engine, input);
    }
  }

  lemma MenuIsConsistent(cfg: Settings)
    ensures Consistent(cfg, MENU_STATE) && Consistent(cfg, INITIAL_STATE)
  {
  }

  lemma ConsistentAt(w: World, ref: ChatRef, cfg: Settings)
    requires EnginesOk(w, ref.business, cfg)
    ensures Consistent(cfg, SavedAt(w, ref).engine)
  {
    MenuIsConsistent(cfg);
  }

  lemma {:induction false} CloseRefsKeepsSaved(w: World, refs: seq<string>, ref: ChatRef)
    ensures ref in w.chats ==>
      ref in CloseRefs(w, refs).chats && CloseRefs(w, refs).chats[ref].saved == w.chats[ref].saved
    ensures ref !in w.chats && ref in CloseRefs(w, refs).chats ==> CloseRefs(w, refs).chats[ref].saved.None?
  {
    if refs != [] { CloseRefsKeepsSaved(w, refs[..|refs| - 1], ref); }
  }

  lemma AbandonedKeepsSaved(w: World, demo: set<string>, ref: ChatRef)
    ensures ref in w.chats ==>
      ref in AbandonedSweep(w, demo).chats && AbandonedSweep(w, demo).chats[ref].saved == w.chats[ref].saved
    ensures ref !in w.chats && ref in AbandonedSweep(w, demo).chats ==> AbandonedSweep(w, demo).chats[ref].saved.None?
  {
    hide IdleLeads, RefsOf, Flip, CloseRefs;
    var ids := IdleLeads(w.funnel.leads, w.now, demo, |w.funnel.leads|);
    CloseRefsKeepsSaved(w.(funnel := Flip(w.funnel, ids)), RefsOf(w.funnel, ids), ref);
  }

  /** With a fixed configuration every stored questionnaire state of every run is
      one the configuration supports. */
  lemma {:induction false} StoredEnginesAreConsistent(
    words: Wording, n: Notices, ops: seq<Op>, business: string, cfg: Settings)
    requires WellFormed(cfg) && forall i :: 0 <= i < |ops| ==> FixedConfig(ops[i], business, cfg)
    ensures EnginesOk(Run(words, n, START, ops), business, cfg)
  {
    hide Perform;
    if ops != [] {
      StoredEnginesAreConsistent(words, n, ops[..|ops| - 1], business, cfg);
      PerformKeepsEngines(words, n, Run(words, n, START, ops[..|ops| - 1]), ops[|ops| - 1], business, cfg);
    }
  }

  // --- tenants --------------------------------------------------------------------------------------

  /** The tenant an operation is issued for; sweeps and time belong to none. */
  function TenantOf(op: Op): Option<string> {
    match op
    case Inbound(ref, _, _, _) => Some(ref.business)
    case Reply(ref, _) => Some(ref.business)
    case WriteStatus(ref, _) => Some(ref.business)
    case Read(ref) => Some(ref.business)
    case WriteLead(business, _, _) => Some(business)
    case _ => None
  }

  /** Everything of tenant `other` is the same in both worlds. */
  ghost predicate SameFor(w: World, w': World, other: string) {
    && (forall ref: ChatRef :: ref.business == other ==>
          (ref in w.chats <==> ref in w'.chats) && (ref in w.chats ==> w.chats[ref] == w'.chats[ref]))
    && (other in w.index <==> other in w'.index) && (other in w.index ==> w.index[other] == w'.index[other])
    && |w.funnel.leads| <= |w'.funnel.leads|
    && (forall id :: 0 <= id < |w.funnel.leads| ==>
          w'.funnel.leads[id].business == w.funnel.leads[id].business &&
          (w.funnel.leads[id].business == other ==> w'.funnel.leads[id] == w.funnel.leads[id]))
    && (forall id :: |w.funnel.leads| <= id < |w'.funnel.leads| ==> w'.funnel.leads[id].business != other)
  }

  lemma RecordIsLocal(n: Notices, f: Funnel, ref: ChatRef, now: int, active: Option<nat>, t: Turn, id: nat)
    ensures var g := RecordTurn(n, f, ref, now, active, t).funnel;
      && |f.leads| <= |g.leads|
      && (id < |f.leads| ==> g.leads[id].business == f.leads[id].business)
      && (id < |f.leads| && f.leads[id].business != ref.business ==> g.leads[id] == f.leads[id])
      && (|f.leads| <= id < |g.leads| ==> g.leads[id].business == ref.business)
  {
  }

  lemma AnswerIsLocal(
    words: Wording, n: Notices, w: World, cfg: Settings, ref: ChatRef, input: Input, link: Option<string>, stale: bool,
    other: string)
    requires ref.business != other
    ensures SameFor(w, AnswerTurn(words, n, w, cfg, ref, input, link, stale).0, other)
  {
    hide Advance, RecordTurn, LinesOf, Delivered;
    var t := EngineTurn(words, w, cfg, ref, input);
    var (f, g) := (w.funnel, RecordTurn(n, w.funnel, ref, w.now, SavedAt(w, ref).leadId, t).funnel);
    RecordIsLocal(n, f, ref, w.now, SavedAt(w, ref).leadId, t, 0);
    forall id: nat | id < |g.leads|
      ensures id < |f.leads| ==> g.leads[id].business == f.leads[id].business
      ensures id < |f.leads| && f.leads[id].business != ref.business ==> g.leads[id] == f.leads[id]
      ensures |f.leads| <= id ==> g.leads[id].business == ref.business
    {
      RecordIsLocal(n, f, ref, w.now, SavedAt(w, ref).leadId, t, id);
    }
  }

  lemma ForgetIsLocal(w: World, ref: ChatRef, other: string)
    requires ref.business != other
    ensures SameFor(w, Forget(w, ref), other)
  {
  }

  lemma SameForJoins(w: World, v: World, u: World, other: string)
    requires SameFor(w, v, other) && SameFor(v, u, other)
    ensures SameFor(w, u, other)
  {
    forall id | 0 <= id < |w.funnel.leads| && w.funnel.leads[id].business == other
      ensures u.funnel.leads[id] == w.funnel.leads[id]
    {
      assert v.funnel.leads[id] == w.funnel.leads[id];
    }
    forall id | |w.funnel.leads| <= id < |u.funnel.leads| ensures u.funnel.leads[id].business != other {
      assert id < |v.funnel.leads| ==> v.funnel.leads[id].business != other;
    }
  }

  lemma InboundIsLocal(
    words: Wording, n: Notices, w: World, cfg: Settings, ref: ChatRef, input: Input, link: Option<string>,
    other: string)
    requires ref.business != other
    ensures SameFor(w, InboundTurn(words, n, w, cfg, ref, input, link).0, other)
  {
    hide AnswerTurn, SameFor, Forget, Newest;
    ForgetIsLocal(w, ref, other);
    AnswerIsLocal(words, n, w, cfg, ref, input, link, false, other);
    AnswerIsLocal(words, n, Forget(w, ref), cfg, ref, input, link, false, other);
    AnswerIsLocal(words, n, Forget(w, ref), cfg, ref, input, link, true, other);
    SameForJoins(w, Forget(w, ref), AnswerTurn(words, n, Forget(w, ref), cfg, ref, input, link, false).0, other);
    SameForJoins(w, Forget(w, ref), AnswerTurn(words, n, Forget(w, ref), cfg, ref, input, link, true).0, other);
    SilentIsLocal(w, ref, input.message, other);
  }

  lemma SilentIsLocal(w: World, ref: ChatRef, message: string, other: string)
    requires ref.business != other
    ensures SameFor(w, SilentTurn(w, ref, message), other)
  {
    hide Newest;
  }

  lemma OperationIsLocal(words: Wording, n: Notices, w: World, op: Op, other: string)
    requires TenantOf(op).Some? && TenantOf(op).value != other
    ensures SameFor(w, Perform(words, n, w, op), other)
  {
    hide InboundTurn;
    if op.Inbound? {
      InboundIsLocal(words, n, w, op.cfg, op.ref, op.input, op.link, other);
    }
  }

  /** A run of other tenants' operations leaves a tenant's chats, transcripts,
      counters, index and leads exactly as they were. */
  lemma {:induction false} RunIsLocal(words: Wording, n: Notices, w: World, ops: seq<Op>, other: string)
    requires forall i :: 0 <= i < |ops| ==> TenantOf(ops[i]).Some? && TenantOf(ops[i]).value != other
    ensures SameFor(w, Run(words, n, w, ops), other)
  {
    hide Perform;
    if ops != [] {
      RunIsLocal(words, n, w, ops[..|ops| - 1], other);
      OperationIsLocal(words, n, Run(words, n, w, ops[..|ops| - 1]), ops[|ops| - 1], other);
      SameForJoins(w, Run(words, n, w, ops[..|ops| - 1]), Run(words, n, w, ops), other);
    }
  }
}
