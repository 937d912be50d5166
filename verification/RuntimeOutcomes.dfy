/** What an operation comes to for the chat, the customer and the owner, in terms of
    the engine, the event and the state before. */
module RuntimeOutcomes {
  import opened Wrappers
  import opened BotModel
  import opened Text
  import opened BotEngine
  import opened ReplyLaws
  import opened Conversations
  import opened RuntimeTranscript
  import opened RuntimeHandoff

  // --- one message --------------------------------------------------------------------

  /** The engine state a message meets: a new one where the chat starts over. */
  ghost function EngineMet(w: World, ref: ChatRef): State {
    if StartsOver(w, ref) || ref !in w.chats || w.chats[ref].saved.None? then INITIAL_STATE
    else w.chats[ref].saved.value.engine
  }

  /** The status a message meets. */
  ghost function StatusMet(w: World, ref: ChatRef): Option<Status> {
    if StartsOver(w, ref) || ref !in w.chats then None else w.chats[ref].status
  }

  /** An answered message: the chat stores the engine's next state; it waits for a
      human if one was asked for, is closed if a questionnaire was completed or a
      booking link given, and keeps its status otherwise; the customer gets the
      engine's reply, after the closing notice if a handoff had gone idle. */
  lemma AnsweredMessage(
    words: Wording, n: Notices, w: World, cfg: Settings, ref: ChatRef, input: Input, link: Option<string>)
    requires !(HumanOn(w, ref) && !Idle(w, ref))
    ensures
      var (w', result) := InboundTurn(words, n, w, cfg, ref, input, link);
      var t := Advance(words, cfg, EngineMet(w, ref), input);
      var notice := if HumanOn(w, ref) then [n.staleClosing] else [];
      && ref in w'.chats && w'.chats[ref].saved.Some? && w'.chats[ref].saved.value.engine == t.state
      && w'.chats[ref].status == (if t.event.HandoffRequested? then Some(Waiting)
                                  else if t.event.LeadCompleted? || t.event.BookingRequested? then Some(Closed)
                                  else StatusMet(w, ref))
      && w'.chats[ref].lastActivity == w.now && w'.now == w.now
      && result.event == t.event && !result.silent
      && (!t.event.BookingRequested? || link.None? ==> result.replies == notice + t.replies)
      && (forall o :: o != ref ==>
            (o in w'.chats <==> o in w.chats) && (o in w.chats ==> w'.chats[o] == w.chats[o]))
  {
    hide AnswerTurn, Forget;
    AnswerIs(words, n, w, cfg, ref, input, link, false);
    AnswerIs(words, n, Forget(w, ref), cfg, ref, input, link, HumanOn(w, ref));
    ForgetIs(w, ref);
  }

  lemma ForgetIs(w: World, ref: ChatRef)
    ensures Forget(w, ref).now == w.now && ref !in Forget(w, ref).chats
    ensures forall o :: o != ref ==> (o in Forget(w, ref).chats <==> o in w.chats)
    ensures forall o :: o != ref && o in w.chats ==> Forget(w, ref).chats[o] == w.chats[o]
    ensures !HumanOn(Forget(w, ref), ref)
  {
  }

  lemma AnswerIs(
    words: Wording, n: Notices, w: World, cfg: Settings, ref: ChatRef, input: Input, link: Option<string>, stale: bool)
    ensures
      var (w', result) := AnswerTurn(words, n, w, cfg, ref, input, link, stale);
      var t := Advance(words, cfg, SavedAt(w, ref).engine, input);
      && ref in w'.chats && w'.chats[ref].saved.Some? && w'.chats[ref].saved.value.engine == t.state
      && w'.chats[ref].status == (if t.event.HandoffRequested? then Some(Waiting)
                                  else if t.event.LeadCompleted? || t.event.BookingRequested? then Some(Closed)
                                  else ChatAt(w, ref).status)
      && w'.chats[ref].lastActivity == w.now && w'.now == w.now && result.event == t.event && !result.silent
      && (!t.event.BookingRequested? || link.None? ==>
            result.replies == (if stale then [n.staleClosing] else []) + t.replies)
      && (forall o :: o != ref ==>
            (o in w'.chats <==> o in w.chats) && (o in w.chats ==> w'.chats[o] == w.chats[o]))
  {
    hide Advance, RecordTurn, LinesOf, Relinked, Enlist, DeadlineOf;
  }

  /** The state the engine reaches on the messages it answered since the chat last
      started over. */
  ghost function EngineReached(words: Wording, n: Notices, ops: seq<Op>, ref: ChatRef): State {
    if ops == [] || ref !in Run(words, n, START, ops).chats then INITIAL_STATE
    else
      var front := ops[..|ops| - 1];
      var w := Run(words, n, START, front);
      match ops[|ops| - 1]
      case Inbound(r, cfg, input, _) =>
        if r != ref || (HumanOn(w, ref) && !Idle(w, ref)) then EngineReached(words, n, front, ref)
        else
          var met := if StartsOver(w, ref) then INITIAL_STATE else EngineReached(words, n, front, ref);
          Advance(words, cfg, met, input).state
      case _ => EngineReached(words, n, front, ref)
  }

  /** An operation that answers no message of the chat keeps its engine state. */
  lemma EngineIsKept(words: Wording, n: Notices, w: World, op: Op, ref: ChatRef)
    requires !(op.Inbound? && op.ref == ref && !(HumanOn(w, ref) && !Idle(w, ref)))
    requires ref in Perform(words, n, w, op).chats
    ensures SavedAt(Perform(words, n, w, op), ref).engine == SavedAt(w, ref).engine
  {
    hide AnswerTurn, StaleSweep, AbandonedSweep, Update, Newest, Enlist;
    if op.SweepStale? { StaleSweepOn(n, w, op.businesses, ref); }
    if op.SweepAbandoned? { AbandonedKeepsSaved(w, op.demo, ref); }
    if op.Inbound? && op.ref != ref { OtherChatIsKept(words, n, w, op.cfg, op.ref, op.input, op.link, ref); }
  }

  lemma OtherChatIsKept(
    words: Wording, n: Notices, w: World, cfg: Settings, r: ChatRef, input: Input, link: Option<string>, ref: ChatRef)
    requires r != ref
    ensures
      var w' := InboundTurn(words, n, w, cfg, r, input, link).0;
      (ref in w'.chats <==> ref in w.chats) && (ref in w.chats ==> w'.chats[ref] == w.chats[ref])
  {
    hide Advance, RecordTurn, LinesOf, Relinked, Enlist, Newest, Update;
  }

  /** Over every run that is the state the chat stores, whatever else was done to the
      chat in between. */
  lemma {:induction false} StoredEngineIsReached(words: Wording, n: Notices, ops: seq<Op>, ref: ChatRef)
    ensures SavedAt(Run(words, n, START, ops), ref).engine == EngineReached(words, n, ops, ref)
  {
    hide Perform, Advance;
    if ops != [] && ref in Run(words, n, START, ops).chats {
      var (front, op) := (ops[..|ops| - 1], ops[|ops| - 1]);
      var w := Run(words, n, START, front);
      StoredEngineIsReached(words, n, front, ref);
      if op.Inbound? && op.ref == ref && !(HumanOn(w, ref) && !Idle(w, ref)) {
        AnsweredMessage(words, n, w, op.cfg, ref, op.input, op.link);
        InboundIs(words, n, w, op);
      } else {
        EngineIsKept(words, n, w, op, ref);
      }
    }
  }

  lemma InboundIs(words: Wording, n: Notices, w: World, op: Op)
    requires op.Inbound?
    ensures Perform(words, n, w, op) == InboundTurn(words, n, w, op.cfg, op.ref, op.input, op.link).0
  {
  }

  // --- the booking link ------------------------------------------------------------------

  /** The customer who picks a booking gets the owner's words with the real link where
      `{link}` stands, and no demo link. */
  lemma RealLinkIsSent(
    words: Wording, n: Notices, w: World, cfg: Settings, ref: ChatRef, input: Input, link: string, a: string, b: string)
    requires !HumanOn(w, ref) && link != "" && words.demoLink != ""
    requires
      var picked := PickFlow(Strip(input.message), cfg.flows);
      picked.Some? && BookingText(words, cfg.flows[picked.value].1) == a + "{link}" + b && '{' !in a && '{' !in b
    requires forall i :: 0 <= i < |a| ==> !(words.demoLink <= (a + words.demoLink + b)[i..])
    requires !Contains(b, words.demoLink)
    ensures
      var result := InboundTurn(words, n, w, cfg, ref, input, Some(link)).1;
      result.event.BookingRequested? ==> result.replies == [a + link + b]
  {
    hide Advance, RecordTurn, LinesOf, Enlist, ReplaceAll, BookingText, Contains;
    var t := Advance(words, cfg, EngineMet(w, ref), input);
    if t.event.BookingRequested? {
      BookingIsTold(words, cfg, EngineMet(w, ref), input, a, b);
      ReplacesLeftmost(a, b, words.demoLink, link);
      ReplacesNothing(b, words.demoLink, link);
      OneRelinked(a + words.demoLink + b, words.demoLink, link);
      assert [] + t.replies == t.replies;
    }
  }

  lemma OneRelinked(reply: string, demo: string, link: string)
    requires demo != ""
    ensures Relinked([reply], demo, link) == [ReplaceAll(reply, demo, link)]
  {
    hide ReplaceAll;
  }

  // --- the owner --------------------------------------------------------------------------

  /** The owner's status stands, and nothing else of the chat or of any other changes
      but the clock and the expiry. */
  lemma OwnerStatusStands(words: Wording, n: Notices, w: World, ref: ChatRef, status: Status)
    ensures
      var w' := Perform(words, n, w, WriteStatus(ref, status));
      && ref in w'.chats && w'.chats[ref].status == Some(status) && w'.chats[ref].lastActivity == w.now
      && w'.chats[ref].saved == ChatAt(w, ref).saved && w'.chats[ref].lines == ChatAt(w, ref).lines
      && w'.chats[ref].unread == ChatAt(w, ref).unread
      && w'.funnel == w.funnel && w'.now == w.now && w'.chats.Keys == w.chats.Keys + {ref}
      && (forall o :: o in w.chats && o != ref ==> w'.chats[o] == w.chats[o])
  {
    hide Enlist;
  }

  /** The owner's reply keeps the chat's status, engine state and badge. */
  lemma OwnerReplyOnlySpeaks(words: Wording, n: Notices, w: World, ref: ChatRef, text: string)
    ensures
      var w' := Perform(words, n, w, Reply(ref, text));
      && ref in w'.chats && w'.chats[ref].status == ChatAt(w, ref).status && w'.chats[ref].saved == ChatAt(w, ref).saved
      && w'.chats[ref].lines == ChatAt(w, ref).lines + [Line(Owner, text)]
      && w'.chats[ref].unread == ChatAt(w, ref).unread && w'.chats[ref].lastActivity == w.now
      && w'.funnel == w.funnel && (forall o :: o in w.chats && o != ref ==> o in w'.chats && w'.chats[o] == w.chats[o])
  {
    hide Enlist;
  }

  /** The owner's status for a lead stands on the tenant's own row, with its clock,
      and on no other. */
  lemma LeadStatusStands(words: Wording, n: Notices, w: World, business: string, lead: nat, status: LeadStatus, id: nat)
    requires id < |w.funnel.leads|
    ensures
      var w' := Perform(words, n, w, WriteLead(business, lead, status));
      && |w'.funnel.leads| == |w.funnel.leads| && w'.funnel.events == w.funnel.events && w'.chats == w.chats
      && w'.funnel.leads[id] ==
           if id == lead && w.funnel.leads[id].business == business
           then w.funnel.leads[id].(status := status, lastActivity := w.now) else w.funnel.leads[id]
  {
  }

  // --- the sweeps ---------------------------------------------------------------------------

  lemma {:induction false} IdleLeadsGrow(leads: seq<Lead>, now: int, demo: set<string>, bound: nat)
    requires bound <= |leads|
    ensures forall i, j :: 0 <= i < j < |IdleLeads(leads, now, demo, bound)| ==>
      IdleLeads(leads, now, demo, bound)[i] < IdleLeads(leads, now, demo, bound)[j]
  {
    if bound > 0 { IdleLeadsGrow(leads, now, demo, bound - 1); }
  }

  lemma {:induction false} FlipIs(f: Funnel, ids: seq<nat>, id: nat)
    requires id < |f.leads| && forall i :: 0 <= i < |ids| ==> ids[i] < |f.leads|
    ensures Flip(f, ids).leads[id] == if id in ids then f.leads[id].(status := Abandoned) else f.leads[id]
    ensures |Flip(f, ids).events| == |f.events| + |ids| && Flip(f, ids).events[..|f.events|] == f.events
    ensures forall i :: 0 <= i < |ids| ==> Flip(f, ids).events[|f.events| + i] == FunnelEvent(Some(ids[i]), Swept)
  {
    if ids != [] {
      FlipIs(f, ids[..|ids| - 1], id);
      assert ids == ids[..|ids| - 1] + [ids[|ids| - 1]];
    }
  }

  /** The abandoned sweep marks exactly the rows in progress that were idle for more
      than 3600 seconds outside the demo tenants, and changes nothing else of any row. */
  lemma AbandonedSweepMarks(words: Wording, n: Notices, w: World, demo: set<string>, id: nat)
    requires id < |w.funnel.leads|
    ensures
      var w' := Perform(words, n, w, SweepAbandoned(demo));
      var row := w.funnel.leads[id];
      && |w'.funnel.leads| == |w.funnel.leads|
      && w'.funnel.leads[id] ==
           if row.status.InProgress? && w.now - row.lastActivity > 3600 && row.business !in demo
           then row.(status := Abandoned) else row
  {
    hide IdleLeads, Flip, CloseRefs, RefsOf;
    var ids := IdleLeads(w.funnel.leads, w.now, demo, |w.funnel.leads|);
    IdleLeadsAre(w.funnel.leads, w.now, demo, |w.funnel.leads|, id);
    FlipIs(w.funnel, ids, id);
    CloseRefsOn(w.(funnel := Flip(w.funnel, ids)), RefsOf(w.funnel, ids), ChatRef("", ""));
  }

  /** One swept event for each idle row, in the order of the rows, and none else. */
  ghost predicate LogsEachOnce(
    before: seq<FunnelEvent>, after: seq<FunnelEvent>, leads: seq<Lead>, now: int, demo: set<string>)
  {
    && |before| <= |after| && after[..|before|] == before
    && (forall i :: |before| <= i < |after| ==>
          && after[i].kind.Swept? && after[i].lead.Some? && after[i].lead.value < |leads|
          && IdleLead(leads, now, demo, after[i].lead.value))
    && (forall i, j :: |before| <= i < j < |after| && after[i].lead.Some? && after[j].lead.Some? ==>
          after[i].lead.value < after[j].lead.value)
    && (forall id :: 0 <= id < |leads| && IdleLead(leads, now, demo, id) ==>
          FunnelEvent(Some(id), Swept) in after[|before|..])
  }

  lemma FlipLogs(f: Funnel, now: int, demo: set<string>)
    ensures LogsEachOnce(f.events, Flip(f, IdleLeads(f.leads, now, demo, |f.leads|)).events, f.leads, now, demo)
  {
    hide IdleLeads, Flip, IdleLead;
    var ids := IdleLeads(f.leads, now, demo, |f.leads|);
    IdleLeadsGrow(f.leads, now, demo, |f.leads|);
    var n0 := |f.events|;
    var events := Flip(f, ids).events;
    if f.leads == [] { NoneIdle(f, now, demo); } else { FlipIs(f, ids, 0); }
    forall i | n0 <= i < |events|
      ensures events[i] == FunnelEvent(Some(ids[i - n0]), Swept) && IdleLead(f.leads, now, demo, ids[i - n0])
    {
      assert events[i] == events[n0 + (i - n0)];
      IdleLeadsAre(f.leads, now, demo, |f.leads|, ids[i - n0]);
    }
    forall id: nat | id < |f.leads| && IdleLead(f.leads, now, demo, id)
      ensures FunnelEvent(Some(id), Swept) in events[n0..]
    {
      IdleLeadsAre(f.leads, now, demo, |f.leads|, id);
      Logged(events, n0, ids, id);
    }
  }

  lemma AbandonedSweepLogs(words: Wording, n: Notices, w: World, demo: set<string>)
    ensures
      var after := Perform(words, n, w, SweepAbandoned(demo)).funnel.events;
      LogsEachOnce(w.funnel.events, after, w.funnel.leads, w.now, demo)
  {
    hide IdleLeads, Flip, CloseRefs, RefsOf, LogsEachOnce;
    var ids := IdleLeads(w.funnel.leads, w.now, demo, |w.funnel.leads|);
    FlipLogs(w.funnel, w.now, demo);
    CloseRefsOn(w.(funnel := Flip(w.funnel, ids)), RefsOf(w.funnel, ids), ChatRef("", ""));
  }

  lemma Logged(events: seq<FunnelEvent>, n0: nat, ids: seq<nat>, id: nat)
    requires n0 + |ids| == |events| && id in ids
    requires forall i :: n0 <= i < |events| ==> events[i] == FunnelEvent(Some(ids[i - n0]), Swept)
    ensures FunnelEvent(Some(id), Swept) in events[n0..]
  {
    var i :| 0 <= i < |ids| && ids[i] == id;
    assert events[n0..][i] == events[n0 + i];
  }

  lemma NoneIdle(f: Funnel, now: int, demo: set<string>)
    requires f.leads == []
    ensures IdleLeads(f.leads, now, demo, |f.leads|) == [] && Flip(f, []) == f
  {
  }

  /** A chat the stale sweep closes keeps its engine state and badge, and ends with the
      closing notice. */
  lemma StaleSweepCloses(n: Notices, w: World, businesses: seq<string>, ref: ChatRef)
    requires ref in w.chats && ref.business in businesses && StaleClosable(w, ref)
    ensures
      var chat := StaleSweep(n, w, businesses).chats;
      && ref in chat && chat[ref].status == Some(Closed) && chat[ref].saved == w.chats[ref].saved
      && chat[ref].unread == w.chats[ref].unread
      && chat[ref].lines == w.chats[ref].lines + [Line(BotRole, n.staleClosing)]
      && chat[ref].lastActivity == w.now && chat[ref].deadline == Some(w.now + 30 * 24 * 60 * 60)
  {
    hide StaleClosable;
    StaleSweepOn(n, w, businesses, ref);
  }

  /** Who the sweep looks at: an open chat silent for more than 3600 seconds that is
      listed. */
  lemma ClosableMeans(w: World, ref: ChatRef)
    ensures StaleClosable(w, ref) <==>
      && ref in w.chats && w.chats[ref].status != Some(Closed) && w.now - w.chats[ref].lastActivity > 3600
      && ref.business in w.index && ref.conversation in w.index[ref.business].members
  {
  }

  /** The windows in seconds: 30 days for a closed chat, 72 hours for one the bot
      drives, none for one waiting for or held by a human. */
  lemma WindowsAre(now: int)
    ensures DeadlineOf(now, Some(Closed)) == Some(now + 2592000)
    ensures DeadlineOf(now, None) == DeadlineOf(now, Some(Bot)) == Some(now + 259200)
    ensures DeadlineOf(now, Some(Waiting)) == DeadlineOf(now, Some(Human)) == None
  {
  }
}
