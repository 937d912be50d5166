/** The runtime: orchestrates Redis and the leads table step by step, and is
    proved to do to them what Conversations says one operation does to a chat
    (backend/app/services/bot_runtime.py, stale_handoff_sweep.py,
    abandoned_sweep.py). */
module BotRuntime {
  import opened Wrappers
  import opened BotModel
  import opened BotEngine
  import opened EngineLaws
  import opened ChatKeys
  import opened Conversations
  import opened ConversationStore
  import opened LeadTable
  import opened RuntimeHandoff

  // --- how Redis holds a chat ---------------------------------------------------

  ghost predicate HashHolds(chat: Chat, hash: Keyed<ConvHash>) {
    hash == Keyed(ConvHash(chat.status, chat.saved, Some(chat.lastActivity)), chat.deadline)
  }

  /** The transcript key exists once something was said and holds the last 200 lines. */
  ghost predicate LogHolds(chat: Chat, logs: map<ChatRef, Keyed<seq<Line>>>, ref: ChatRef) {
    if chat.lines == [] then ref !in logs
    else ref in logs && logs[ref] == Keyed(Recent(chat.lines), chat.deadline)
  }

  /** The counter key exists while something is unread. */
  ghost predicate CountHolds(chat: Chat, unreads: map<ChatRef, Keyed<nat>>, ref: ChatRef) {
    if chat.unread == 0 then ref !in unreads
    else ref in unreads && unreads[ref] == Keyed(chat.unread, chat.deadline)
  }

  /** The three keys of every chat agree with it, and so expire together. */
  ghost predicate Refines(
    hashes: map<ChatRef, Keyed<ConvHash>>, logs: map<ChatRef, Keyed<seq<Line>>>, unreads: map<ChatRef, Keyed<nat>>,
    chats: map<ChatRef, Chat>
  ) {
    && chats.Keys == hashes.Keys && logs.Keys <= hashes.Keys && unreads.Keys <= hashes.Keys
    && forall ref :: ref in chats ==>
         HashHolds(chats[ref], hashes[ref]) && LogHolds(chats[ref], logs, ref) && CountHolds(chats[ref], unreads, ref)
  }

  ghost predicate SameElsewhere<V>(m: map<ChatRef, V>, m': map<ChatRef, V>, ref: ChatRef) {
    forall o :: o != ref ==> (o in m <==> o in m') && (o in m ==> m[o] == m'[o])
  }

  /** Rewriting the keys of one chat consistently keeps every chat consistent. */
  lemma RefinesOneChat(
    hashes: map<ChatRef, Keyed<ConvHash>>, logs: map<ChatRef, Keyed<seq<Line>>>, unreads: map<ChatRef, Keyed<nat>>,
    chats: map<ChatRef, Chat>,
    hashes': map<ChatRef, Keyed<ConvHash>>, logs': map<ChatRef, Keyed<seq<Line>>>, unreads': map<ChatRef, Keyed<nat>>,
    ref: ChatRef, chat: Chat)
    requires Refines(hashes, logs, unreads, chats)
    requires SameElsewhere(hashes, hashes', ref) && SameElsewhere(logs, logs', ref) &&
      SameElsewhere(unreads, unreads', ref)
    requires ref in hashes' && HashHolds(chat, hashes'[ref]) && LogHolds(chat, logs', ref) &&
      CountHolds(chat, unreads', ref)
    ensures Refines(hashes', logs', unreads', chats[ref := chat])
  {
  }

  /** The keys of a chat expire together. */
  lemma ExpireTogether(
    hashes: map<ChatRef, Keyed<ConvHash>>, logs: map<ChatRef, Keyed<seq<Line>>>, unreads: map<ChatRef, Keyed<nat>>,
    chats: map<ChatRef, Chat>, now: int)
    requires Refines(hashes, logs, unreads, chats)
    ensures Refines(Unexpired(hashes, now), Unexpired(logs, now), Unexpired(unreads, now),
                    map ref | ref in chats && Alive(now, chats[ref].deadline) :: chats[ref])
  {
    hide Recent;
    var alive := map ref | ref in chats && Alive(now, chats[ref].deadline) :: chats[ref];
    forall ref | ref in chats
      ensures HashHolds(chats[ref], hashes[ref]) && LogHolds(chats[ref], logs, ref) &&
        CountHolds(chats[ref], unreads, ref)
    {
    }
    assert alive.Keys == Unexpired(hashes, now).Keys;
  }

  class Runtime {
    const words: Wording
    const notices: Notices
    const store: Store
    const leads: Leads
    ghost var chats: map<ChatRef, Chat>

    ghost predicate Valid()
      reads this, store
    {
      Refines(store.hashes, store.logs, store.unreads, chats)
    }

    /** The whole state as one value. */
    ghost function Snapshot(): World
      reads this, store, leads
    {
      World(store.now, chats, store.index, leads.Contents())
    }

    constructor (words: Wording, notices: Notices)
      ensures Valid() && Snapshot() == START
      ensures fresh(store) && fresh(leads)
      ensures this.words == words && this.notices == notices
    {
      this.words, this.notices := words, notices;
      this.store := new Store();
      this.leads := new Leads();
      this.chats := map[];
    }

    // --- owner operations ------------------------------------------------------------

    method SetConversationStatus(ref: ChatRef, status: Status)
      requires Valid()
      modifies this, store
      ensures Valid() && Snapshot() == Conversations.SetStatus(old(Snapshot()), ref, status)
    {
      hide Recent, Enlist;
      ghost var chat := ChatAt(Snapshot(), ref).(status := Some(status), lastActivity := store.now,
                                                 deadline := DeadlineOf(store.now, Some(status)));
      store.SetStatus(ref, status);
      RefinesOneChat(old(store.hashes), old(store.logs), old(store.unreads), chats,
                     store.hashes, store.logs, store.unreads, ref, chat);
      chats := chats[ref := chat];
    }

    method ReplyToConversation(ref: ChatRef, text: string)
      requires Valid()
      modifies this, store
      ensures Valid() && Snapshot() == Conversations.OwnerReply(old(Snapshot()), ref, text)
    {
      hide Recent, Enlist;
      ghost var before := ChatAt(Snapshot(), ref);
      ghost var chat := before.(lines := before.lines + [Line(Owner, text)], lastActivity := store.now,
                                deadline := DeadlineOf(store.now, before.status));
      RecentGrows(before.lines, Line(Owner, text));
      store.AppendReply(ref, text);
      RefinesOneChat(old(store.hashes), old(store.logs), old(store.unreads), chats,
                     store.hashes, store.logs, store.unreads, ref, chat);
      chats := chats[ref := chat];
    }

    method OpenConversation(ref: ChatRef)
      requires Valid()
      modifies this, store
      ensures Valid() && Snapshot() == Conversations.MarkRead(old(Snapshot()), ref)
    {
      store.MarkRead(ref);
      if ref in chats {
        RefinesOneChat(old(store.hashes), old(store.logs), old(store.unreads), chats,
                       store.hashes, store.logs, store.unreads, ref, chats[ref].(unread := 0));
        chats := chats[ref := chats[ref].(unread := 0)];
      }
    }

    /** The owner restates a lead. */
    method SetLeadStatus(business: string, lead: nat, status: LeadStatus)
      requires Valid()
      modifies leads
      ensures Valid()
      ensures Snapshot()
        == old(Snapshot()).(funnel := Update(old(Snapshot()).funnel, business, lead, Restated(status, store.now)))
    {
      leads.SetLeadStatus(business, lead, status, store.now);
    }

    /** Time passes: the keys of a chat disappear together. */
    method PassTime(seconds: nat)
      requires Valid()
      modifies this, store
      ensures Valid() && Snapshot() == Conversations.Elapse(old(Snapshot()), seconds)
    {
      hide Refines, Recent;
      ExpireTogether(store.hashes, store.logs, store.unreads, chats, store.now + seconds);
      store.Elapse(seconds);
      chats := map ref | ref in chats && Alive(store.now, chats[ref].deadline) :: chats[ref];
    }

    // --- one inbound message -------------------------------------------------------------

    /** The silent path, the fresh-start paths, or straight to the engine. */
    method RunTurn(cfg: Settings, ref: ChatRef, input: Input, link: Option<string>) returns (r: TurnResult)
      requires Valid()
      modifies this, store, leads
      ensures Valid()
      ensures (Snapshot(), r) == Conversations.InboundTurn(words, notices, old(Snapshot()), cfg, ref, input, link)
    {
      var status := store.GetStatus(ref);
      var staleReset := false;
      if status == Some(Waiting) || status == Some(Human) {
        var lastActivity := store.GetLastActivityAt(ref);
        var isStale := lastActivity.Some? && store.now - lastActivity.value > STALE_HANDOFF_SECONDS;
        if isStale {
          StartOver(ref);
          status := None;
          staleReset := true;
        } else {
          RecordSilently(ref, input.message);
          return TurnResult([], NoEvent, None, true);
        }
      }
      if status == Some(Closed) {
        StartOver(ref);
      }
      r := Answer(cfg, ref, input, link, staleReset);
    }

    method StartOver(ref: ChatRef)
      requires Valid()
      modifies this, store
      ensures Valid() && Snapshot() == Conversations.Forget(old(Snapshot()), ref)
    {
      store.ResetConversation(ref);
      chats := chats - {ref};
    }

    /** The three keys of the chat after the customer's line, all on the clock of
        the status the chat had. */
    ghost predicate HeardAs(before: World, ref: ChatRef, message: string)
      reads store
    {
      var chat := ChatAt(before, ref);
      var deadline := DeadlineOf(before.now, chat.status);
      && store.now == before.now
      && ref in store.hashes && store.hashes[ref] ==
        Keyed(ConvHash(chat.status, chat.saved, Some(before.now)), deadline)
      && ref in store.logs && store.logs[ref] == Keyed(Recent(chat.lines + [Line(Customer, message)]), deadline)
      && ref in store.unreads && store.unreads[ref] == Keyed(chat.unread + 1, deadline)
      && store.index == Enlist(before.index, ref, deadline)
    }

    /** Put the customer's line on the transcript and bump the badge. */
    method Hear(ref: ChatRef, message: string)
      requires Valid()
      modifies store`hashes, store`logs, store`unreads, store`index
      ensures HeardAs(old(Snapshot()), ref, message)
      ensures SameElsewhere(old(store.hashes), store.hashes, ref)
      ensures SameElsewhere(old(store.logs), store.logs, ref)
      ensures SameElsewhere(old(store.unreads), store.unreads, ref)
    {
      RecentGrows(ChatAt(Snapshot(), ref).lines, Line(Customer, message));
      store.AppendMessage(ref, Customer, message);
      store.IncrUnread(ref);
    }

    /** A human is on the chat: keep the message, bump the badge and the newest
        lead's clock, answer nothing. */
    method RecordSilently(ref: ChatRef, message: string)
      requires Valid() && HumanOn(Snapshot(), ref)
      modifies this, store, leads
      ensures Valid() && Snapshot() == Conversations.SilentTurn(old(Snapshot()), ref, message)
    {
      hide Recent, Newest, ConversationStore.HashAt, Enlist, Update;
      ghost var before := chats[ref];
      ghost var chat := before.(lines := before.lines + [Line(Customer, message)], unread := before.unread + 1,
                                lastActivity := store.now, deadline := DeadlineOf(store.now, before.status));
      Hear(ref, message);
      RefinesOneChat(old(store.hashes), old(store.logs), old(store.unreads), chats,
                     store.hashes, store.logs, store.unreads, ref, chat);
      chats := chats[ref := chat];
      var active := leads.ActiveLeadByConversation(ref);
      if active.Some? {
        leads.TouchActivity(ref.business, active.value, store.now);
      }
    }

    /** Leads and funnel events of one engine turn. */
    method PersistTurn(ref: ChatRef, active: Option<nat>, t: Turn, now: int) returns (lead: Option<nat>)
      modifies leads
      ensures Recorded(leads.Contents(), lead) == RecordTurn(notices, old(leads.Contents()), ref, now, active, t)
    {
      lead := active;
      if active.None? && t.state.phase.InFlow? {
        var id := leads.CreateLead(ref, t.state.activeFlow.GetOr(""), now);
        lead := Some(id);
        leads.LogEvent(lead, Started);
      } else if active.Some? && t.state.phase.InFlow? {
        leads.UpdateLead(ref.business, active.value, t.state.collected, t.state.stepIndex, now);
        leads.LogEvent(active, Stepped);
      }
      if t.event.LeadCompleted? {
        if lead.Some? {
          leads.CompleteLead(ref.business, lead.value, t.lead.GetOr(map[]), now);
        }
        leads.LogEvent(lead, Completed);
      } else if t.event.HandoffRequested? {
        if lead.None? {
          var id := leads.CreateLead(ref, notices.handoffTitle, now);
          lead := Some(id);
        }
        leads.LogEvent(lead, HandoffAsked);
      } else if t.event.BookingRequested? {
        if lead.None? {
          var id := leads.CreateLead(ref, notices.bookingTitle, now);
          lead := Some(id);
        }
      }
    }

    /** What the chat's keys hold between the lead writes and the last reply: the
        transcript and the badge already expire as the status says, the hash does
        not until a reply is appended. */
    ghost predicate MidTurn(
      before: World, ref: ChatRef, status: Option<Status>, saved: Saved, lines: seq<Line>, unread: nat, answered: bool)
      reads store
    {
      var deadline := DeadlineOf(before.now, status);
      && store.now == before.now
      && ref in store.hashes && store.hashes[ref].value == ConvHash(status, Some(saved), Some(before.now))
      && (answered ==> store.hashes[ref].deadline == deadline)
      && ref in store.logs && store.logs[ref] == Keyed(Recent(lines), deadline)
      && ref in store.unreads && store.unreads[ref] == Keyed(unread, deadline)
      && store.index == Enlist(
           before.index, ref, if answered then deadline else Some(before.now + CONVERSATION_TTL_SECONDS))
    }

    /** Mark the chat as waiting if the engine asked for a human, then save the
        engine state, which puts 72 hours on the hash whatever the status. */
    method SaveTurn(ref: ChatRef, waiting: bool, toSave: Saved, ghost w: World, ghost message: string)
      requires HeardAs(w, ref, message)
      modifies store`hashes, store`logs, store`unreads, store`index
      ensures var chat := ChatAt(w, ref);
        MidTurn(w, ref, if waiting then Some(Waiting) else chat.status, toSave,
                chat.lines + [Line(Customer, message)], chat.unread + 1, false)
      ensures SameElsewhere(old(store.hashes), store.hashes, ref)
      ensures SameElsewhere(old(store.logs), store.logs, ref)
      ensures SameElsewhere(old(store.unreads), store.unreads, ref)
    {
      hide Recent, Enlist, DeadlineOf;
      if waiting {
        store.SetStatus(ref, Waiting);
      }
      store.SetState(ref, toSave);
      EnlistChain(w.index, ref, DeadlineOf(w.now, ChatAt(w, ref).status), DeadlineOf(w.now, Some(Waiting)),
        Some(w.now + CONVERSATION_TTL_SECONDS));
    }

    /** A finished chat is closed, so that the next message starts over. */
    method CloseIfDone(ref: ChatRef, done: bool, ghost w: World, ghost chat: Chat)
      requires chat.saved.Some? && chat.lines != [] && chat.unread > 0
      requires MidTurn(w, ref, chat.status, chat.saved.value, chat.lines, chat.unread, true)
      modifies store`hashes, store`logs, store`unreads, store`index
      ensures
        var status := if done then Some(Closed) else chat.status;
        var closed := chat.(status := status, lastActivity := w.now, deadline := DeadlineOf(w.now, status));
        && ref in store.hashes && HashHolds(closed, store.hashes[ref])
        && LogHolds(closed, store.logs, ref) && CountHolds(closed, store.unreads, ref)
        && store.index == Enlist(w.index, ref, DeadlineOf(w.now, status))
      ensures SameElsewhere(old(store.hashes), store.hashes, ref)
      ensures SameElsewhere(old(store.logs), store.logs, ref)
      ensures SameElsewhere(old(store.unreads), store.unreads, ref)
    {
      hide Recent, Enlist, DeadlineOf;
      if done {
        store.SetStatus(ref, Closed);
        EnlistTwice(w.index, ref, DeadlineOf(w.now, chat.status), DeadlineOf(w.now, Some(Closed)));
      }
    }

    /** Save the turn, mirror its replies, close the chat if it is finished. */
    method Conclude(
      ref: ChatRef, waiting: bool, done: bool, toSave: Saved, replies: seq<string>, ghost w: World,
      ghost message: string)
      requires HeardAs(w, ref, message) && replies != []
      modifies store`hashes, store`logs, store`unreads, store`index
      ensures
        var chat := Concluded(w, ref, message, waiting, done, toSave, replies);
        && store.now == w.now
        && ref in store.hashes && HashHolds(chat, store.hashes[ref])
        && LogHolds(chat, store.logs, ref) && CountHolds(chat, store.unreads, ref)
        && store.index == Enlist(w.index, ref, chat.deadline)
      ensures SameElsewhere(old(store.hashes), store.hashes, ref)
      ensures SameElsewhere(old(store.logs), store.logs, ref)
      ensures SameElsewhere(old(store.unreads), store.unreads, ref)
    {
      hide LinesOf, Recent, Enlist, DeadlineOf;
      ghost var chat := ChatAt(w, ref);
      ghost var status := if waiting then Some(Waiting) else chat.status;
      ghost var said := chat.lines + [Line(Customer, message)];
      SaveTurn(ref, waiting, toSave, w, message);
      AppendReplies(ref, replies, w, status, toSave, said, chat.unread + 1);
      CloseIfDone(ref, done, w, Chat(status, Some(toSave), w.now, said + LinesOf(BotRole, replies),
        chat.unread + 1, None));
    }

    /** Run the engine on the saved state and write everything the turn implies. */
    method Answer(cfg: Settings, ref: ChatRef, input: Input, link: Option<string>, stale: bool) returns (r: TurnResult)
      requires Valid()
      modifies this, store, leads
      ensures Valid()
      ensures (Snapshot(), r) == Conversations.AnswerTurn(words, notices, old(Snapshot()), cfg, ref, input, link, stale)
    {
      hide Advance, RecordTurn, Delivered, LinesOf, Recent, Enlist, DeadlineOf, HashHolds, LogHolds, CountHolds,
        AnsweredChat;
      ghost var w := Snapshot();
      Hear(ref, input.message);
      var loaded := store.GetState(ref);
      var saved := loaded.GetOr(Saved(INITIAL_STATE, None));
      var t := Advance(words, cfg, saved.engine, input);
      var lead := PersistTurn(ref, saved.leadId, t, store.now);
      var toSave := Saved(t.state, if t.state.phase.InFlow? then lead else None);
      var replies := Delivered(words, notices, t, stale, link);
      TurnShape(words, cfg, saved.engine, input);
      DeliveredSomething(words, notices, t, stale, link);
      var done := t.event.LeadCompleted? || t.event.BookingRequested?;
      Conclude(ref, t.event.HandoffRequested?, done, toSave, replies, w, input.message);
      ghost var chat := Concluded(w, ref, input.message, t.event.HandoffRequested?, done, toSave, replies);
      ConcludedIsAnswered(w, ref, input.message, t, replies, lead);
      RefinesOneChat(old(store.hashes), old(store.logs), old(store.unreads), chats,
                     store.hashes, store.logs, store.unreads, ref, chat);
      chats := chats[ref := chat];
      r := TurnResult(replies, t.event, lead, false);
    }

    /** Mirror each reply onto the transcript; the first one already puts every
        key of the chat back on its status' clock. */
    method AppendReplies(
      ref: ChatRef, replies: seq<string>,
      ghost w: World, ghost status: Option<Status>, ghost saved: Saved, ghost lines: seq<Line>, ghost unread: nat)
      requires MidTurn(w, ref, status, saved, lines, unread, false) && replies != []
      modifies store`hashes, store`logs, store`unreads, store`index
      ensures MidTurn(w, ref, status, saved, lines + LinesOf(BotRole, replies), unread, true)
      ensures SameElsewhere(old(store.hashes), store.hashes, ref)
      ensures SameElsewhere(old(store.logs), store.logs, ref)
      ensures SameElsewhere(old(store.unreads), store.unreads, ref)
    {
      assert lines + [] == lines;
      for k := 0 to |replies|
        invariant MidTurn(w, ref, status, saved, lines + LinesOf(BotRole, replies[..k]), unread, k > 0)
        invariant SameElsewhere(old(store.hashes), store.hashes, ref)
        invariant SameElsewhere(old(store.logs), store.logs, ref)
        invariant SameElsewhere(old(store.unreads), store.unreads, ref)
      {
        ghost var said := lines + LinesOf(BotRole, replies[..k]);
        assert replies[..k + 1][..k] == replies[..k];
        assert lines + LinesOf(BotRole, replies[..k + 1]) == said + [Line(BotRole, replies[k])];
        RecentGrows(said, Line(BotRole, replies[k]));
        EnlistTwice(w.index, ref, if k > 0 then DeadlineOf(w.now, status) else Some(w.now + CONVERSATION_TTL_SECONDS),
                    DeadlineOf(w.now, status));
        store.AppendMessage(ref, BotRole, replies[k]);
      }
      assert replies[..|replies|] == replies;
    }

    // --- the sweeps ------------------------------------------------------------------------

    /** Tell the customer, mirror it, close the chat. */
    method CloseStale(ref: ChatRef)
      requires Valid() && ref in chats
      modifies this, store
      ensures Valid()
      ensures var w := old(Snapshot());
        Snapshot() == w.(chats := w.chats[ref := ClosedNow(w, w.chats[ref], notices.staleClosing)],
                         index := Enlist(w.index, ref, DeadlineOf(w.now, Some(Closed))))
    {
      hide Recent, Enlist;
      ghost var w := Snapshot();
      ghost var chat := ClosedNow(w, chats[ref], notices.staleClosing);
      RecentGrows(chats[ref].lines, Line(BotRole, notices.staleClosing));
      store.AppendMessage(ref, BotRole, notices.staleClosing);
      store.SetStatus(ref, Closed);
      EnlistTwice(w.index, ref, DeadlineOf(w.now, w.chats[ref].status), DeadlineOf(w.now, Some(Closed)));
      RefinesOneChat(old(store.hashes), old(store.logs), old(store.unreads), chats,
                     store.hashes, store.logs, store.unreads, ref, chat);
      chats := chats[ref := chat];
    }

    /** One tenant: every listed chat that is still open and silent for over an hour. */
    method SweepBusiness(business: string) returns (closed: nat)
      requires Valid()
      modifies this, store
      ensures Valid() && Snapshot() == StaleSweepOne(notices, old(Snapshot()), business)
      ensures closed == |DueIn(old(Snapshot()), business, ListedIn(old(Snapshot()), business))|
    {
      hide DueIn, SweptSoFar, StaleSweepOne, ClosedNow, Recent, Enlist, Unlist, LogHolds, CountHolds, HashHolds,
        NewestFirst, DeadlineOf;
      ghost var w := Snapshot();
      var items := store.ListConversations(business, None);
      closed := 0;
      if business in w.index {
        SweepBegins(notices, w, business);
        SweepEnds(notices, w, business);
        assert Among(items) == w.index[business].members - Missing(w, business) by { LiveIsListed(w, business); }
      } else {
        NothingDue(notices, w, business);
      }
      if items == [] {
        assert Among(items) == {};
        return;
      }
      assert Among(items[..0]) == {};
      for k := 0 to |items|
        invariant Among(items) == w.index[business].members - Missing(w, business)
        invariant Valid() && Snapshot() == SweptSoFar(notices, w, business, Among(items[..k]))
        invariant closed == |DueIn(w, business, Among(items[..k]))|
      {
        var ref := ChatRef(business, items[k]);
        assert items[k] in Among(items);
        assert items[k] !in Among(items[..k]);
        SweepGrows(notices, w, business, Among(items[..k]), items[k]);
        assert Among(items[..k + 1]) == Among(items[..k]) + {items[k]};
        var done := CloseIfStale(ref);
        if done { closed := closed + 1; }
      }
      assert items[..|items|] == items;
    }

    /** One listed chat of the pass. */
    method CloseIfStale(ref: ChatRef) returns (done: bool)
      requires Valid() && ref in chats
      modifies this, store
      ensures Valid()
      ensures var w := old(Snapshot());
        && done == (w.chats[ref].status != Some(Closed) && Idle(w, ref))
        && Snapshot() ==
             if !done then w
             else w.(chats := w.chats[ref := ClosedNow(w, w.chats[ref], notices.staleClosing)],
                     index := Enlist(w.index, ref, DeadlineOf(w.now, Some(Closed))))
    {
      hide Recent, Enlist, LogHolds, CountHolds;
      done := false;
      var status := store.GetStatus(ref);
      var lastActivity := store.GetLastActivityAt(ref);
      if status != Some(Closed) && lastActivity.Some? && store.now - lastActivity.value > STALE_HANDOFF_SECONDS {
        CloseStale(ref);
        done := true;
      }
    }

    /** The stale sweep over the tenants that have an index; it returns how many
        chats it closed. */
    method StaleHandoffSweep(businesses: seq<string>) returns (closed: nat)
      requires Valid()
      modifies this, store
      ensures Valid() && Snapshot() == StaleSweep(notices, old(Snapshot()), businesses)
      ensures closed == |AllDue(old(Snapshot()), businesses)|
    {
      hide StaleSweepOne, AllDue, DueIn;
      ghost var w := Snapshot();
      closed := 0;
      assert AllDue(w, businesses[..0]) == {} by { NobodyDue(w); }
      for k := 0 to |businesses|
        invariant Valid() && Snapshot() == StaleSweep(notices, w, businesses[..k])
        invariant closed == |AllDue(w, businesses[..k])|
      {
        assert businesses[..k + 1][..k] == businesses[..k];
        MoreDue(notices, w, businesses[..k + 1]);
        var more := SweepBusiness(businesses[k]);
        closed := closed + more;
      }
      assert businesses[..|businesses|] == businesses;
    }

    /** Flip the idle leads, then close the chat each of them points at. */
    method AbandonedLeadSweep(demo: set<string>) returns (flipped: nat)
      requires Valid()
      modifies this, store, leads
      ensures Valid() && Snapshot() == AbandonedSweep(old(Snapshot()), demo)
      ensures var w := old(Snapshot()); flipped == |IdleLeads(w.funnel.leads, w.now, demo, |w.funnel.leads|)|
    {
      hide IdleLeads, Flip, RefsOf, Conversations.SetStatus;
      ghost var ids := IdleLeads(Snapshot().funnel.leads, store.now, demo, |Snapshot().funnel.leads|);
      ghost var flippedFunnel := Flip(Snapshot().funnel, ids);
      RefsPerLead(Snapshot().funnel, ids);
      var refs := leads.SweepAbandonedLeads(store.now, demo);
      ghost var w := Snapshot();
      for k := 0 to |refs|
        invariant Valid() && Snapshot() == CloseRefs(w, refs[..k])
      {
        assert refs[..k + 1][..k] == refs[..k];
        var parsed := SplitChatRef(refs[k]);
        if parsed.Some? {
          SetConversationStatus(ChatRef(parsed.value.0, parsed.value.1), Closed);
        }
      }
      assert refs[..|refs|] == refs;
      flipped := |refs|;
    }

    // --- runs ---------------------------------------------------------------------------------

    /** A whole run of operations. */
    method Execute(ops: seq<Op>)
      requires Valid()
      modifies this, store, leads
      ensures Valid() && Snapshot() == Run(words, notices, old(Snapshot()), ops)
    {
      ghost var w := Snapshot();
      for k := 0 to |ops|
        invariant Valid() && Snapshot() == Run(words, notices, w, ops[..k])
      {
        assert ops[..k + 1][..k] == ops[..k];
        Do(ops[k]);
      }
      assert ops[..|ops|] == ops;
    }

    /** One operation. */
    method Do(op: Op)
      requires Valid()
      modifies this, store, leads
      ensures Valid() && Snapshot() == Perform(words, notices, old(Snapshot()), op)
    {
      hide InboundTurn, Conversations.SetStatus, OwnerReply, MarkRead, Update, StaleSweep, AbandonedSweep, Elapse,
        Refines;
      match op {
        case Inbound(ref, cfg, input, link) =>
          var r := RunTurn(cfg, ref, input, link);
        case Reply(ref, text) => ReplyToConversation(ref, text);
        case WriteStatus(ref, status) => SetConversationStatus(ref, status);
        case Read(ref) => OpenConversation(ref);
        case WriteLead(business, lead, status) => SetLeadStatus(business, lead, status);
        case SweepStale(businesses) =>
          var closed := StaleHandoffSweep(businesses);
        case SweepAbandoned(demo) =>
          var flipped := AbandonedLeadSweep(demo);
        case Wait(seconds) => PassTime(seconds);
      }
    }
  }

  /** A chat after a turn, with its deadline. */
  ghost function Concluded(
    w: World, ref: ChatRef, message: string, waiting: bool, done: bool, toSave: Saved, replies: seq<string>
  ): Chat {
    var chat := ChatAt(w, ref);
    var status := if done then Some(Closed) else if waiting then Some(Waiting) else chat.status;
    Chat(status, Some(toSave), w.now, chat.lines + [Line(Customer, message)] + LinesOf(BotRole, replies),
         chat.unread + 1, DeadlineOf(w.now, status))
  }

  lemma ConcludedIsAnswered(w: World, ref: ChatRef, message: string, t: Turn, replies: seq<string>, lead: Option<nat>)
    ensures
      var answered := AnsweredChat(w, ref, message, t, replies, lead);
      var chat := Concluded(w, ref, message, t.event.HandoffRequested?,
                            t.event.LeadCompleted? || t.event.BookingRequested?,
                            Saved(t.state, if t.state.phase.InFlow? then lead else None), replies);
      chat == answered.(lastActivity := w.now, deadline := DeadlineOf(w.now, answered.status))
  {
    hide LinesOf, DeadlineOf;
  }

  // --- the stale sweep, one chat at a time --------------------------------------------------

  ghost function ListedIn(w: World, business: string): set<string> {
    if business in w.index then w.index[business].members else {}
  }

  /** The chats of `done` that the sweep closes. */
  ghost function DueIn(w: World, business: string, done: set<string>): set<ChatRef> {
    set ref | ref in w.chats && ref.business == business && ref.conversation in done && StaleClosable(w, ref)
  }

  ghost function Among(items: seq<string>): set<string> { set c | c in items }

  /** All the chats a pass over these tenants closes. */
  ghost function AllDue(w: World, businesses: seq<string>): set<ChatRef> {
    set ref | ref in w.chats && ref.business in businesses && StaleClosable(w, ref)
  }

  lemma NobodyDue(w: World)
    ensures AllDue(w, []) == {}
  {
  }

  /** The last tenant's pass closes what the passes before it did not. */
  lemma MoreDue(n: Notices, w: World, businesses: seq<string>)
    requires businesses != []
    ensures
      var (front, last) := (businesses[..|businesses| - 1], businesses[|businesses| - 1]);
      var v := StaleSweep(n, w, front);
      |AllDue(w, businesses)| == |AllDue(w, front)| + |DueIn(v, last, ListedIn(v, last))|
  {
    hide StaleSweep, StaleClosable;
    var (front, last) := (businesses[..|businesses| - 1], businesses[|businesses| - 1]);
    var v := StaleSweep(n, w, front);
    var more := DueIn(v, last, ListedIn(v, last));
    assert businesses == front + [last];
    forall ref
      ensures ref in AllDue(w, businesses) <==> ref in AllDue(w, front) || ref in more
      ensures !(ref in AllDue(w, front) && ref in more)
    {
      StaleSweepOn(n, w, front, ref);
      if StaleClosable(v, ref) { ClosableIsListed(v, ref); }
    }
    assert AllDue(w, businesses) == AllDue(w, front) + more;
    assert AllDue(w, front) !! more;
  }

  lemma ClosableIsListed(w: World, ref: ChatRef)
    requires StaleClosable(w, ref)
    ensures ref in w.chats && ref.conversation in ListedIn(w, ref.business)
  {
  }

  /** The world once the listed chats in `done` have been looked at. */
  ghost function SweptSoFar(n: Notices, w: World, business: string, done: set<string>): World
    requires business in w.index
  {
    var due := DueIn(w, business, done);
    var pruned := Unlist(w.index, business, Missing(w, business));
    w.(chats := map ref | ref in w.chats ::
         if ref in due then ClosedNow(w, w.chats[ref], n.staleClosing) else w.chats[ref],
       index := if due == {} then pruned
                else pruned[business := Listing(w.index[business].members - Missing(w, business),
                  DeadlineOf(w.now, Some(Closed)))])
  }

  lemma LiveIsListed(w: World, business: string)
    requires business in w.index
    ensures (set c | c in w.index[business].members && ChatRef(business, c) in w.chats)
      == w.index[business].members - Missing(w, business)
  {
  }

  lemma NothingDue(n: Notices, w: World, business: string)
    requires business !in w.index
    ensures StaleSweepOne(n, w, business) == w
    ensures DueIn(w, business, ListedIn(w, business)) == {}
  {
  }

  lemma SweepBegins(n: Notices, w: World, business: string)
    requires business in w.index
    ensures DueIn(w, business, {}) == {}
    ensures SweptSoFar(n, w, business, {}) == w.(index := Unlist(w.index, business, Missing(w, business)))
  {
    assert DueIn(w, business, {}) == {};
    assert SweptSoFar(n, w, business, {}).chats == w.chats;
  }

  lemma SweepEnds(n: Notices, w: World, business: string)
    requires business in w.index
    ensures DueIn(w, business, w.index[business].members - Missing(w, business)) ==
      DueIn(w, business, ListedIn(w, business))
    ensures SweptSoFar(n, w, business, w.index[business].members - Missing(w, business)) ==
      StaleSweepOne(n, w, business)
  {
    var live := w.index[business].members - Missing(w, business);
    forall ref | ref in w.chats && ref.business == business && ref.conversation in w.index[business].members
      ensures ref.conversation in live
    {
      assert ref == ChatRef(business, ref.conversation);
    }
    assert DueIn(w, business, live) == set ref | ref in w.chats && ref.business == business && StaleClosable(w, ref);
    assert DueIn(w, business, ListedIn(w, business)) == DueIn(w, business, live);
  }

  lemma SweepGrows(n: Notices, w: World, business: string, done: set<string>, c: string)
    requires business in w.index && c in w.index[business].members - Missing(w, business) && c !in done
    ensures
      var ref := ChatRef(business, c);
      var before := SweptSoFar(n, w, business, done);
      var after := SweptSoFar(n, w, business, done + {c});
      && ref in w.chats && ref in before.chats && before.chats[ref] == w.chats[ref] && before.now == w.now
      && (StaleClosable(w, ref) <==> w.chats[ref].status != Some(Closed) && Idle(before, ref))
      && (!StaleClosable(w, ref) ==> after == before && DueIn(w, business, done + {c}) == DueIn(w, business, done))
      && (StaleClosable(w, ref) ==>
           |DueIn(w, business, done + {c})| == |DueIn(w, business, done)| + 1 &&
           after == before.(chats := before.chats[ref := ClosedNow(before, before.chats[ref], n.staleClosing)],
                            index := Enlist(before.index, ref, DeadlineOf(before.now, Some(Closed)))))
  {
    ClosableIsIdle(w, ChatRef(business, c));
    hide StaleClosable;
    var ref := ChatRef(business, c);
    var (old', new') := (DueIn(w, business, done), DueIn(w, business, done + {c}));
    if StaleClosable(w, ref) {
      assert new' == old' + {ref};
      var before := SweptSoFar(n, w, business, done);
      var live := w.index[business].members - Missing(w, business);
      assert before.index[business].members + {c} == live by { UnlistLeaves(w, business, c); }
      assert SweptSoFar(n, w, business, done + {c}).chats ==
        before.chats[ref := ClosedNow(before, before.chats[ref], n.staleClosing)];
    } else {
      assert new' == old';
    }
  }

  lemma ClosableIsIdle(w: World, ref: ChatRef)
    requires ref in w.chats && ref.business in w.index && ref.conversation in w.index[ref.business].members
    ensures StaleClosable(w, ref) <==> w.chats[ref].status != Some(Closed) && Idle(w, ref)
  {
  }

  lemma UnlistLeaves(w: World, business: string, c: string)
    requires business in w.index && c in w.index[business].members - Missing(w, business)
    ensures business in Unlist(w.index, business, Missing(w, business))
    ensures Unlist(w.index, business, Missing(w, business))[business].members ==
      w.index[business].members - Missing(w, business)
  {
    var gone := Missing(w, business);
    if w.index[business].members !! gone {
      assert w.index[business].members - gone == w.index[business].members;
    }
  }

  lemma {:induction false} RefsPerLead(f: Funnel, ids: seq<nat>)
    requires forall i :: 0 <= i < |ids| ==> ids[i] < |f.leads|
    ensures |RefsOf(f, ids)| == |ids|
  {
    if ids != [] { RefsPerLead(f, ids[..|ids| - 1]); }
  }

  lemma EnlistChain(index: map<string, Listing>, ref: ChatRef, a: Option<int>, b: Option<int>, c: Option<int>)
    ensures Enlist(Enlist(index, ref, a), ref, c) == Enlist(index, ref, c)
    ensures Enlist(Enlist(Enlist(index, ref, a), ref, b), ref, c) == Enlist(index, ref, c)
  {
    EnlistTwice(index, ref, a, c);
    EnlistTwice(index, ref, a, b);
    EnlistTwice(index, ref, b, c);
  }

  lemma DeliveredSomething(words: Wording, n: Notices, t: Turn, stale: bool, link: Option<string>)
    requires |t.replies| == 1
    ensures Delivered(words, n, t, stale, link) != []
  {
  }
}
