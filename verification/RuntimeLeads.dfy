/** The lead lifecycle over whole runs, with the configuration free to change
    between turns. */
module RuntimeLeads {
  import opened Wrappers
  import opened BotModel
  import opened BotEngine
  import opened EngineLaws
  import opened ChatKeys
  import opened Conversations

  // --- funnel events ---------------------------------------------------------------

  predicate Terminal(kind: EventKind) { kind.Completed? || kind.HandoffAsked? }

  /** No event of this lead ends it. */
  ghost predicate Open(f: Funnel, id: nat) {
    forall i :: 0 <= i < |f.events| && f.events[i].lead == Some(id) ==> !Terminal(f.events[i].kind)
  }

  /** Every event has its lead; a lead is started before anything else happens to
      it, and after it was completed or handed off only the sweep may mark it. So
      a lead is started, completed and handed off at most once, never both of the
      latter, and no step follows either. */
  ghost predicate EventsOk(f: Funnel) {
    && (forall i :: 0 <= i < |f.events| ==> f.events[i].lead.Some? && f.events[i].lead.value < |f.leads|)
    && (forall i, j :: 0 <= i < j < |f.events| && f.events[i].lead == f.events[j].lead ==>
          !f.events[j].kind.Started? && (Terminal(f.events[i].kind) ==> f.events[j].kind.Swept?))
  }

  /** A stored engine state carries a lead exactly while a questionnaire runs, and
      that lead is open and belongs to this very chat. */
  ghost predicate SavedOk(f: Funnel, ref: ChatRef, saved: Saved) {
    && (saved.leadId.Some? <==> saved.engine.phase.InFlow?)
    && (saved.leadId.Some? ==> OpenLeadOf(f, ref, saved.leadId.value))
  }

  ghost predicate OpenLeadOf(f: Funnel, ref: ChatRef, id: nat) {
    && id < |f.leads| && Open(f, id)
    && f.leads[id].business == ref.business
    && f.leads[id].chatRef == ChatRefText(ref.business, ref.conversation)
  }

  ghost predicate LeadsOk(w: World) {
    && EventsOk(w.funnel)
    && (forall ref :: ref in w.chats && w.chats[ref].saved.Some? ==> SavedOk(w.funnel, ref, w.chats[ref].saved.value))
  }

  /** Two chats never share a stored lead. */
  lemma StoredLeadsAreApart(w: World, a: ChatRef, b: ChatRef)
    requires LeadsOk(w) && a in w.chats && b in w.chats && a != b
    requires w.chats[a].saved.Some? && w.chats[b].saved.Some?
    ensures var (x, y) := (w.chats[a].saved.value.leadId, w.chats[b].saved.value.leadId);
      x.Some? && y.Some? ==> x != y
  {
    var (x, y) := (w.chats[a].saved.value, w.chats[b].saved.value);
    assert SavedOk(w.funnel, a, x) && SavedOk(w.funnel, b, y);
    assert ChatRefText(a.business, a.conversation)[|CONV + ":" + a.business + ":"|..] == a.conversation;
    assert ChatRefText(b.business, b.conversation)[|CONV + ":" + b.business + ":"|..] == b.conversation;
  }

  // --- recording one turn -------------------------------------------------------------

  /** `g` keeps the leads of `f` in place and adds only events about `own`. */
  ghost predicate Extends(f: Funnel, g: Funnel, own: Option<nat>) {
    && |f.leads| <= |g.leads| && |f.events| <= |g.events|
    && (forall id :: 0 <= id < |f.leads| ==>
          g.leads[id].business == f.leads[id].business && g.leads[id].chatRef == f.leads[id].chatRef)
    && (forall i :: 0 <= i < |f.events| ==> g.events[i] == f.events[i])
    && (forall i :: |f.events| <= i < |g.events| ==> g.events[i].lead == own)
  }

  lemma LogLaws(f: Funnel, id: nat, kind: EventKind)
    requires EventsOk(f) && id < |f.leads|
    requires Open(f, id) || kind.Swept?
    requires kind.Started? ==> forall i :: 0 <= i < |f.events| ==> f.events[i].lead != Some(id)
    ensures EventsOk(Log(f, Some(id), kind)) && Extends(f, Log(f, Some(id), kind), Some(id))
    ensures !Terminal(kind) && Open(f, id) ==> Open(Log(f, Some(id), kind), id)
  {
  }

  /** What one turn does to the funnel: a turn in a questionnaire works on the one
      open lead of this chat, a finished questionnaire closes it, and no event is
      ever logged without a lead. */
  lemma RecordTurnLaws(
    words: Wording, n: Notices, f: Funnel, cfg: Settings, ref: ChatRef, now: int, saved: Saved, input: Input)
    requires EventsOk(f) && SavedOk(f, ref, saved)
    ensures
      var t := Advance(words, cfg, saved.engine, input);
      var r := RecordTurn(n, f, ref, now, saved.leadId, t);
      WellRecorded(f, ref, saved, t, r) && Written(n, f, ref, now, saved, t, r)
  {
    hide WellRecorded, Written, RecordTurn;
    TurnShape(words, cfg, saved.engine, input);
    if Advance(words, cfg, saved.engine, input).state.phase.InFlow? {
      InFlowShape(words, cfg, saved.engine, input);
    }
    TurnIsRecorded(n, f, ref, now, saved, Advance(words, cfg, saved.engine, input));
    TurnIsWritten(n, f, ref, now, saved, Advance(words, cfg, saved.engine, input));
  }

  /** What recording a turn gives: the funnel stays in order and only grows, and each
      event of the turn has its lead and its entry. */
  ghost predicate WellRecorded(f: Funnel, ref: ChatRef, saved: Saved, t: Turn, r: Recorded) {
    && EventsOk(r.funnel)
    && Extends(f, r.funnel, r.lead)
    && (r.lead.Some? ==> r.lead.value < |r.funnel.leads| && (saved.leadId.Some? || r.lead.value >= |f.leads|))
    && (t.state.phase.InFlow? ==> r.lead.Some? && OpenLeadOf(r.funnel, ref, r.lead.value))
    && (saved.leadId.Some? ==> r.lead == saved.leadId)
    && (t.event.LeadCompleted? ==>
         && saved.leadId.Some? && r.lead == saved.leadId
         && r.funnel.leads[r.lead.value].status.Fresh? && Some(r.funnel.leads[r.lead.value].answers) == t.lead
         && r.funnel.events == f.events + [FunnelEvent(r.lead, Completed)])
    && (t.event.HandoffRequested? ==>
         r.lead.Some? && r.funnel.events == f.events + [FunnelEvent(r.lead, HandoffAsked)])
    && (t.event.BookingRequested? ==> r.lead == Some(|f.leads|) && r.funnel.events == f.events)
  }

  lemma FlowIsRecorded(n: Notices, f: Funnel, ref: ChatRef, now: int, saved: Saved, t: Turn)
    requires EventsOk(f) && SavedOk(f, ref, saved) && t.state.phase.InFlow? && t.event.NoEvent?
    ensures WellRecorded(f, ref, saved, t, RecordTurn(n, f, ref, now, saved.leadId, t))
  {
    if saved.leadId.Some? {
      var g := Update(f, ref.business, saved.leadId.value, Progressed(t.state.collected, t.state.stepIndex, now));
      LogLaws(g, saved.leadId.value, Stepped);
    } else {
      var g := Create(f, ref, t.state.activeFlow.GetOr(""), now);
      LogLaws(g, |f.leads|, Started);
    }
  }

  lemma CompletionIsRecorded(n: Notices, f: Funnel, ref: ChatRef, now: int, saved: Saved, t: Turn)
    requires EventsOk(f) && SavedOk(f, ref, saved) && !t.state.phase.InFlow? && t.event.LeadCompleted?
    requires saved.engine.phase.InFlow? && t.lead.Some?
    ensures WellRecorded(f, ref, saved, t, RecordTurn(n, f, ref, now, saved.leadId, t))
  {
    var g := Update(f, ref.business, saved.leadId.value, Finished(t.lead.GetOr(map[]), now));
    LogLaws(g, saved.leadId.value, Completed);
  }

  lemma HandoffIsRecorded(n: Notices, f: Funnel, ref: ChatRef, now: int, saved: Saved, t: Turn)
    requires EventsOk(f) && SavedOk(f, ref, saved) && !t.state.phase.InFlow? && t.event.HandoffRequested?
    ensures WellRecorded(f, ref, saved, t, RecordTurn(n, f, ref, now, saved.leadId, t))
  {
    var g := EnsureLead(f, ref, now, saved.leadId, n.handoffTitle);
    LogLaws(g.funnel, g.lead.value, HandoffAsked);
  }

  lemma RestIsRecorded(n: Notices, f: Funnel, ref: ChatRef, now: int, saved: Saved, t: Turn)
    requires EventsOk(f) && SavedOk(f, ref, saved) && !t.state.phase.InFlow?
    requires t.event.NoEvent? || (t.event.BookingRequested? && !saved.engine.phase.InFlow?)
    ensures WellRecorded(f, ref, saved, t, RecordTurn(n, f, ref, now, saved.leadId, t))
  {
  }

  lemma TurnIsRecorded(n: Notices, f: Funnel, ref: ChatRef, now: int, saved: Saved, t: Turn)
    requires EventsOk(f) && SavedOk(f, ref, saved)
    requires t.state.phase.InFlow? ==> t.event.NoEvent?
    requires t.event.LeadCompleted? ==> saved.engine.phase.InFlow? && t.lead.Some?
    requires t.event.BookingRequested? ==> saved.engine.phase.Menu?
    ensures WellRecorded(f, ref, saved, t, RecordTurn(n, f, ref, now, saved.leadId, t))
  {
    hide EventsOk, SavedOk, WellRecorded, RecordTurn;
    if t.state.phase.InFlow? {
      FlowIsRecorded(n, f, ref, now, saved, t);
    } else if t.event.LeadCompleted? {
      CompletionIsRecorded(n, f, ref, now, saved, t);
    } else if t.event.HandoffRequested? {
      HandoffIsRecorded(n, f, ref, now, saved, t);
    } else {
      RestIsRecorded(n, f, ref, now, saved, t);
    }
  }

  /** Whose row a new lead is, before anything is known of the customer. */
  ghost predicate NewRow(row: Lead, ref: ChatRef, title: string, now: int) {
    && row.business == ref.business && row.chatRef == ChatRefText(ref.business, ref.conversation)
    && row.title == title && row.status.InProgress? && row.answers == map[] && row.lastStep == 0
    && row.lastActivity == now
  }

  /** What a turn writes, row by row and entry by entry: a new row only where a
      questionnaire starts or a human or a booking is asked for without an open lead;
      the open lead's answers, step and clock while its questionnaire runs; the
      answers of the whole questionnaire when it completes; nothing else. */
  ghost predicate Written(n: Notices, f: Funnel, ref: ChatRef, now: int, saved: Saved, t: Turn, r: Recorded) {
    var opens :=
      saved.leadId.None? && (t.state.phase.InFlow? || t.event.HandoffRequested? || t.event.BookingRequested?);
    && r.lead == (if opens then Some(|f.leads|) else saved.leadId)
    && |r.funnel.leads| == |f.leads| + (if opens then 1 else 0)
    && (forall id :: 0 <= id < |f.leads| && saved.leadId != Some(id) ==> r.funnel.leads[id] == f.leads[id])
    && (opens ==>
          NewRow(r.funnel.leads[|f.leads|], ref,
                 if t.event.HandoffRequested? then n.handoffTitle
                 else if t.event.BookingRequested? then n.bookingTitle
                 else t.state.activeFlow.GetOr(""), now))
    && (saved.leadId.Some? && saved.leadId.value < |f.leads| ==>
          var row := f.leads[saved.leadId.value];
          r.funnel.leads[saved.leadId.value] ==
            if t.state.phase.InFlow? then
              row.(answers := t.state.collected, lastStep := t.state.stepIndex, lastActivity := now)
            else if t.event.LeadCompleted? then
              row.(answers := t.lead.GetOr(map[]), status := Fresh, lastActivity := now)
            else row)
    && r.funnel.events == f.events +
         (if t.state.phase.InFlow? then [FunnelEvent(r.lead, if saved.leadId.None? then Started else Stepped)]
          else if t.event.LeadCompleted? then [FunnelEvent(r.lead, Completed)]
          else if t.event.HandoffRequested? then [FunnelEvent(r.lead, HandoffAsked)]
          else [])
  }

  lemma TurnIsWritten(n: Notices, f: Funnel, ref: ChatRef, now: int, saved: Saved, t: Turn)
    requires SavedOk(f, ref, saved)
    requires t.state.phase.InFlow? ==> t.event.NoEvent?
    requires t.event.BookingRequested? ==> saved.engine.phase.Menu?
    ensures Written(n, f, ref, now, saved, t, RecordTurn(n, f, ref, now, saved.leadId, t))
  {
    hide ChatRefText;
  }

  // --- every operation ------------------------------------------------------------------

  /** Leads stored elsewhere are not touched by a turn of `ref`. */
  lemma OthersStayOpen(f: Funnel, g: Funnel, own: Option<nat>, ref: ChatRef, saved: Saved)
    requires SavedOk(f, ref, saved) && Extends(f, g, own)
    requires saved.leadId.Some? ==> saved.leadId != own
    ensures SavedOk(g, ref, saved)
  {
  }

  lemma AnswerKeepsLeads(
    words: Wording, n: Notices, w: World, cfg: Settings, ref: ChatRef, input: Input, link: Option<string>, stale: bool)
    requires LeadsOk(w)
    ensures LeadsOk(AnswerTurn(words, n, w, cfg, ref, input, link, stale).0)
    ensures var (w', result) := AnswerTurn(words, n, w, cfg, ref, input, link, stale);
      result.event.LeadCompleted? ==>
        && result.leadId.Some? && OpenLeadOf(w.funnel, ref, result.leadId.value)
        && result.leadId.value < |w'.funnel.leads|
        && w'.funnel.leads[result.leadId.value].status.Fresh?
        && Some(w'.funnel.leads[result.leadId.value].answers) == EngineTurn(words, w, cfg, ref, input).lead
  {
    hide Advance, RecordTurn, Delivered, LinesOf, Enlist, EventsOk, Extends;
    var saved := SavedAt(w, ref);
    assert SavedOk(w.funnel, ref, saved);
    RecordTurnLaws(words, n, w.funnel, cfg, ref, w.now, saved, input);
    var t := EngineTurn(words, w, cfg, ref, input);
    var r := RecordTurn(n, w.funnel, ref, w.now, saved.leadId, t);
    var w' := AnswerTurn(words, n, w, cfg, ref, input, link, stale).0;
    forall o | o in w'.chats && w'.chats[o].saved.Some? ensures SavedOk(w'.funnel, o, w'.chats[o].saved.value) {
      if o != ref {
        var other := w.chats[o].saved.value;
        assert SavedOk(w.funnel, o, other);
        if other.leadId.Some? && ref in w.chats && w.chats[ref].saved.Some? {
          StoredLeadsAreApart(w, o, ref);
        }
        OthersStayOpen(w.funnel, r.funnel, r.lead, o, other);
      }
    }
  }

  lemma ForgetKeepsLeads(w: World, ref: ChatRef)
    requires LeadsOk(w)
    ensures LeadsOk(Forget(w, ref))
  {
  }

  /** Rewriting a row's status, answers or activity opens and closes nothing. */
  lemma UpdateKeepsLeads(w: World, business: string, id: nat, change: Lead -> Lead)
    requires LeadsOk(w)
    requires forall l :: change(l).business == l.business && change(l).chatRef == l.chatRef
    ensures LeadsOk(w.(funnel := Update(w.funnel, business, id, change)))
  {
    var g := Update(w.funnel, business, id, change);
    forall ref | ref in w.chats && w.chats[ref].saved.Some? ensures SavedOk(g, ref, w.chats[ref].saved.value) {
      assert SavedOk(w.funnel, ref, w.chats[ref].saved.value);
    }
  }

  /** Storing a chat whose saved state is unchanged keeps the leads in order. */
  lemma SettleKeepsLeads(w: World, ref: ChatRef, chat: Chat)
    requires LeadsOk(w) && chat.saved == ChatAt(w, ref).saved
    ensures LeadsOk(Settle(w, ref, chat))
  {
  }

  lemma InboundKeepsLeads(
    words: Wording, n: Notices, w: World, cfg: Settings, ref: ChatRef, input: Input, link: Option<string>)
    requires LeadsOk(w)
    ensures LeadsOk(InboundTurn(words, n, w, cfg, ref, input, link).0)
  {
    hide AnswerTurn, LeadsOk, Settle, Forget, Newest;
    ForgetKeepsLeads(w, ref);
    AnswerKeepsLeads(words, n, w, cfg, ref, input, link, false);
    AnswerKeepsLeads(words, n, Forget(w, ref), cfg, ref, input, link, false);
    AnswerKeepsLeads(words, n, Forget(w, ref), cfg, ref, input, link, true);
    SilentKeepsLeads(w, ref, input.message);
  }

  lemma SilentKeepsLeads(w: World, ref: ChatRef, message: string)
    requires LeadsOk(w)
    ensures LeadsOk(SilentTurn(w, ref, message))
  {
    hide LeadsOk, Settle, Newest, Update;
    var chat := ChatAt(w, ref);
    var heard := chat.(lines := chat.lines + [Line(Customer, message)], unread := chat.unread + 1);
    var newest := Newest(w.funnel.leads, ref);
    SettleKeepsLeads(w, ref, heard);
    if newest.Some? {
      UpdateKeepsLeads(Settle(w, ref, heard), ref.business, newest.value, Touched(w.now));
      assert Settle(w, ref, heard).funnel == w.funnel by { SettleKeepsFunnel(w, ref, heard); }
    }
  }

  lemma SettleKeepsFunnel(w: World, ref: ChatRef, chat: Chat)
    ensures Settle(w, ref, chat).funnel == w.funnel
  {
  }

  lemma {:induction false} StaleSweepKeepsLeads(n: Notices, w: World, businesses: seq<string>)
    requires LeadsOk(w)
    ensures LeadsOk(StaleSweep(n, w, businesses))
  {
    if businesses != [] {
      var before := StaleSweep(n, w, businesses[..|businesses| - 1]);
      StaleSweepKeepsLeads(n, w, businesses[..|businesses| - 1]);
      var after := StaleSweepOne(n, before, businesses[|businesses| - 1]);
      forall ref | ref in after.chats && after.chats[ref].saved.Some?
        ensures SavedOk(after.funnel, ref, after.chats[ref].saved.value)
      {
        assert SavedOk(before.funnel, ref, before.chats[ref].saved.value);
      }
    }
  }

  lemma {:induction false} FlipKeepsLeads(w: World, ids: seq<nat>)
    requires LeadsOk(w) && forall i :: 0 <= i < |ids| ==> ids[i] < |w.funnel.leads|
    ensures LeadsOk(w.(funnel := Flip(w.funnel, ids)))
  {
    if ids != [] {
      var f := Flip(w.funnel, ids[..|ids| - 1]);
      FlipKeepsLeads(w, ids[..|ids| - 1]);
      var id := ids[|ids| - 1];
      var g := f.(leads := f.leads[id := f.leads[id].(status := Abandoned)]);
      LogLaws(g, id, Swept);
      var w' := w.(funnel := Log(g, Some(id), Swept));
      forall ref | ref in w.chats && w.chats[ref].saved.Some?
        ensures SavedOk(w'.funnel, ref, w.chats[ref].saved.value)
      {
        assert SavedOk(f, ref, w.(funnel := f).chats[ref].saved.value);
      }
    }
  }

  lemma {:induction false} CloseRefsKeepsLeads(w: World, refs: seq<string>)
    requires LeadsOk(w)
    ensures LeadsOk(CloseRefs(w, refs))
  {
    if refs != [] {
      var before := CloseRefs(w, refs[..|refs| - 1]);
      CloseRefsKeepsLeads(w, refs[..|refs| - 1]);
      match SplitChatRef(refs[|refs| - 1])
      case None =>
      case Some((b, c)) =>
        SettleKeepsLeads(before, ChatRef(b, c), ChatAt(before, ChatRef(b, c)).(status := Some(Closed)));
    }
  }

  lemma PerformKeepsLeads(words: Wording, n: Notices, w: World, op: Op)
    requires LeadsOk(w)
    ensures LeadsOk(Perform(words, n, w, op))
  {
    hide InboundTurn, StaleSweep, CloseRefs, Flip, IdleLeads, RefsOf, Update, LeadsOk, Settle;
    match op
    case Inbound(ref, cfg, input, link) => InboundKeepsLeads(words, n, w, cfg, ref, input, link);
    case Reply(ref, text) =>
      SettleKeepsLeads(w, ref, ChatAt(w, ref).(lines := ChatAt(w, ref).lines + [Line(Owner, text)]));
    case WriteStatus(ref, status) => SettleKeepsLeads(w, ref, ChatAt(w, ref).(status := Some(status)));
    case Read(ref) => ReadKeepsLeads(w, ref);
    case WriteLead(business, lead, status) => UpdateKeepsLeads(w, business, lead, Restated(status, w.now));
    case SweepStale(businesses) => StaleSweepKeepsLeads(n, w, businesses);
    case SweepAbandoned(demo) =>
      var ids := IdleLeads(w.funnel.leads, w.now, demo, |w.funnel.leads|);
      FlipKeepsLeads(w, ids);
      CloseRefsKeepsLeads(w.(funnel := Flip(w.funnel, ids)), RefsOf(w.funnel, ids));
    case Wait(seconds) => ElapseKeepsLeads(w, seconds);
  }

  lemma ReadKeepsLeads(w: World, ref: ChatRef)
    requires LeadsOk(w)
    ensures LeadsOk(MarkRead(w, ref))
  {
  }

  lemma ElapseKeepsLeads(w: World, seconds: nat)
    requires LeadsOk(w)
    ensures LeadsOk(Elapse(w, seconds))
  {
  }

  /** The lifecycle holds after every operation of every run. */
  lemma {:induction false} LifecycleHolds(words: Wording, n: Notices, ops: seq<Op>)
    ensures LeadsOk(Run(words, n, START, ops))
  {
    if ops != [] {
      LifecycleHolds(words, n, ops[..|ops| - 1]);
      PerformKeepsLeads(words, n, Run(words, n, START, ops[..|ops| - 1]), ops[|ops| - 1]);
    }
  }

  /** In every run each lead is started, completed and handed off at most once,
      not both completed and handed off, and nothing but the sweep touches its
      funnel after either. */
  lemma EachLeadEndsOnce(words: Wording, n: Notices, ops: seq<Op>, i: nat, j: nat)
    requires var events := Run(words, n, START, ops).funnel.events;
      i < j < |events| && events[i].lead == events[j].lead
    ensures var events := Run(words, n, START, ops).funnel.events;
      && !events[j].kind.Started?
      && (events[i].kind.Completed? || events[i].kind.HandoffAsked? ==> events[j].kind.Swept?)
  {
    LifecycleHolds(words, n, ops);
  }

  // --- a finished lead stays as it is ---------------------------------------------------

  /** Nothing but its status and its clock differs. */
  ghost predicate SameRecord(f: Funnel, g: Funnel, id: nat) {
    && id < |f.leads| && id < |g.leads|
    && f.leads[id].(status := InProgress, lastActivity := 0) == g.leads[id].(status := InProgress, lastActivity := 0)
  }

  /** The lead was completed or handed over, and its record is that of `f`. */
  ghost predicate StillFinished(f: Funnel, g: Funnel, id: nat) { SameRecord(f, g, id) && !Open(g, id) }

  lemma LogKeepsFinished(f: Funnel, g: Funnel, id: nat, lead: Option<nat>, kind: EventKind)
    requires StillFinished(f, g, id)
    ensures StillFinished(f, Log(g, lead, kind), id)
  {
    var i :| 0 <= i < |g.events| && g.events[i].lead == Some(id) && Terminal(g.events[i].kind);
    assert Log(g, lead, kind).events[i] == g.events[i];
  }

  lemma UpdateKeepsFinished(f: Funnel, g: Funnel, id: nat, business: string, other: nat, change: Lead -> Lead)
    requires StillFinished(f, g, id)
    requires other != id ||
      forall l :: change(l).(status := InProgress, lastActivity := 0) == l.(status := InProgress, lastActivity := 0)
    ensures StillFinished(f, Update(g, business, other, change), id)
  {
  }

  lemma CreateKeepsFinished(f: Funnel, g: Funnel, id: nat, ref: ChatRef, title: string, now: int)
    requires StillFinished(f, g, id)
    ensures StillFinished(f, Create(g, ref, title, now), id)
  {
    hide ChatRefText;
  }

  /** A turn writes only to the open lead stored for its chat and to new rows. */
  lemma RecordKeepsFinished(
    n: Notices, f: Funnel, g: Funnel, ref: ChatRef, now: int, active: Option<nat>, t: Turn, id: nat)
    requires StillFinished(f, g, id) && active != Some(id)
    ensures StillFinished(f, RecordTurn(n, g, ref, now, active, t).funnel, id)
  {
    hide StillFinished, Log, Update, Create;
    var lead := active;
    var h := g;
    if t.state.phase.InFlow? {
      if active.None? {
        CreateKeepsFinished(f, h, id, ref, t.state.activeFlow.GetOr(""), now);
        FinishedIsOld(f, g, id);
        lead, h := Some(|g.leads|), Create(h, ref, t.state.activeFlow.GetOr(""), now);
        LogKeepsFinished(f, h, id, lead, Started);
        h := Log(h, lead, Started);
      } else {
        var change := Progressed(t.state.collected, t.state.stepIndex, now);
        UpdateKeepsFinished(f, h, id, ref.business, active.value, change);
        h := Update(h, ref.business, active.value, change);
        LogKeepsFinished(f, h, id, active, Stepped);
        h := Log(h, active, Stepped);
      }
    }
    assert RecordProgress(g, ref, now, active, t) == Recorded(h, lead);
    assert lead != Some(id);
    EventKeepsFinished(n, f, h, ref, now, lead, t, id);
  }

  lemma FinishedIsOld(f: Funnel, g: Funnel, id: nat)
    requires StillFinished(f, g, id)
    ensures id < |g.leads|
  {
  }

  lemma EventKeepsFinished(
    n: Notices, f: Funnel, g: Funnel, ref: ChatRef, now: int, lead: Option<nat>, t: Turn, id: nat)
    requires StillFinished(f, g, id) && lead != Some(id)
    ensures StillFinished(f, RecordEvent(n, g, ref, now, lead, t).funnel, id)
  {
    hide StillFinished, Log, Update, Create;
    match t.event
    case NoEvent =>
    case LeadCompleted =>
      var change := Finished(t.lead.GetOr(map[]), now);
      if lead.Some? {
        UpdateKeepsFinished(f, g, id, ref.business, lead.value, change);
        LogKeepsFinished(f, Update(g, ref.business, lead.value, change), id, lead, Completed);
      } else {
        LogKeepsFinished(f, g, id, lead, Completed);
      }
    case HandoffRequested =>
      CreateKeepsFinished(f, g, id, ref, n.handoffTitle, now);
      var r := EnsureLead(g, ref, now, lead, n.handoffTitle);
      LogKeepsFinished(f, r.funnel, id, r.lead, HandoffAsked);
    case BookingRequested => CreateKeepsFinished(f, g, id, ref, n.bookingTitle, now);
  }

  lemma AnswerKeepsFinished(
    words: Wording, n: Notices, f: Funnel, w: World, cfg: Settings, ref: ChatRef, input: Input, link: Option<string>,
    stale: bool, id: nat)
    requires LeadsOk(w) && StillFinished(f, w.funnel, id)
    ensures StillFinished(f, AnswerTurn(words, n, w, cfg, ref, input, link, stale).0.funnel, id)
  {
    hide Advance, RecordTurn, LinesOf, Delivered, StillFinished, EventsOk;
    var saved := SavedAt(w, ref);
    assert SavedOk(w.funnel, ref, saved);
    assert saved.leadId != Some(id) by {
      if saved.leadId == Some(id) {
        FinishedIsClosed(f, w.funnel, id);
        assert false;
      }
    }
    RecordKeepsFinished(n, f, w.funnel, ref, w.now, saved.leadId, EngineTurn(words, w, cfg, ref, input), id);
  }

  lemma FinishedIsClosed(f: Funnel, g: Funnel, id: nat)
    requires StillFinished(f, g, id)
    ensures !Open(g, id)
  {
  }

  lemma InboundKeepsFinished(
    words: Wording, n: Notices, f: Funnel, w: World, cfg: Settings, ref: ChatRef, input: Input, link: Option<string>,
    id: nat)
    requires LeadsOk(w) && StillFinished(f, w.funnel, id)
    ensures StillFinished(f, InboundTurn(words, n, w, cfg, ref, input, link).0.funnel, id)
  {
    hide AnswerTurn, LeadsOk, Newest, StillFinished, Update;
    ForgetKeepsLeads(w, ref);
    AnswerKeepsFinished(words, n, f, w, cfg, ref, input, link, false, id);
    AnswerKeepsFinished(words, n, f, Forget(w, ref), cfg, ref, input, link, false, id);
    AnswerKeepsFinished(words, n, f, Forget(w, ref), cfg, ref, input, link, true, id);
    var newest := Newest(w.funnel.leads, ref);
    if newest.Some? { UpdateKeepsFinished(f, w.funnel, id, ref.business, newest.value, Touched(w.now)); }
  }

  lemma {:induction false} FlipKeepsFinished(f: Funnel, g: Funnel, ids: seq<nat>, id: nat)
    requires StillFinished(f, g, id) && forall i :: 0 <= i < |ids| ==> ids[i] < |g.leads|
    ensures StillFinished(f, Flip(g, ids), id)
  {
    if ids != [] {
      var before := Flip(g, ids[..|ids| - 1]);
      FlipKeepsFinished(f, g, ids[..|ids| - 1], id);
      var last := ids[|ids| - 1];
      var flipped := before.(leads := before.leads[last := before.leads[last].(status := Abandoned)]);
      LogKeepsFinished(f, flipped, id, Some(last), Swept);
    }
  }

  lemma PerformKeepsFinished(words: Wording, n: Notices, f: Funnel, w: World, op: Op, id: nat)
    requires LeadsOk(w) && StillFinished(f, w.funnel, id)
    ensures StillFinished(f, Perform(words, n, w, op).funnel, id)
  {
    hide InboundTurn, StaleSweep, CloseRefs, Flip, IdleLeads, RefsOf, Update, LeadsOk, StillFinished;
    match op
    case Inbound(ref, cfg, input, link) => InboundKeepsFinished(words, n, f, w, cfg, ref, input, link, id);
    case WriteLead(business, lead, status) =>
      UpdateKeepsFinished(f, w.funnel, id, business, lead, Restated(status, w.now));
    case SweepStale(businesses) => StaleSweepKeepsFunnel(n, w, businesses);
    case SweepAbandoned(demo) =>
      var ids := IdleLeads(w.funnel.leads, w.now, demo, |w.funnel.leads|);
      FlipKeepsFinished(f, w.funnel, ids, id);
      CloseRefsKeepsFunnel(w.(funnel := Flip(w.funnel, ids)), RefsOf(w.funnel, ids));
    case _ =>
  }

  lemma {:induction false} StaleSweepKeepsFunnel(n: Notices, w: World, businesses: seq<string>)
    ensures StaleSweep(n, w, businesses).funnel == w.funnel
  {
    if businesses != [] { StaleSweepKeepsFunnel(n, w, businesses[..|businesses| - 1]); }
  }

  lemma {:induction false} CloseRefsKeepsFunnel(w: World, refs: seq<string>)
    ensures CloseRefs(w, refs).funnel == w.funnel
  {
    if refs != [] { CloseRefsKeepsFunnel(w, refs[..|refs| - 1]); }
  }

  /** Once a lead was completed or handed over, its answers, its last step and the
      rest of its row never change again in any run, except for its status and
      its clock. */
  lemma {:induction false} FinishedLeadsStay(words: Wording, n: Notices, ops: seq<Op>, more: seq<Op>, id: nat)
    requires id < |Run(words, n, START, ops).funnel.leads| && !Open(Run(words, n, START, ops).funnel, id)
    ensures SameRecord(Run(words, n, START, ops).funnel, Run(words, n, START, ops + more).funnel, id)
    ensures !Open(Run(words, n, START, ops + more).funnel, id)
    decreases |more|
  {
    hide Perform;
    if more == [] {
      assert ops + more == ops;
    } else {
      var front := more[..|more| - 1];
      FinishedLeadsStay(words, n, ops, front, id);
      LifecycleHolds(words, n, ops + front);
      PerformKeepsFinished(words, n, Run(words, n, START, ops).funnel, Run(words, n, START, ops + front),
        more[|more| - 1], id);
      assert (ops + more)[..|ops + more| - 1] == ops + front;
    }
  }

  /** A turn that completes a questionnaire finalises this chat's own open lead
      with exactly the answers the engine collected. */
  lemma CompletionFinalisesOpenLead(
    words: Wording, n: Notices, w: World, cfg: Settings, ref: ChatRef, input: Input, link: Option<string>)
    requires LeadsOk(w)
    ensures
      var (w', result) := InboundTurn(words, n, w, cfg, ref, input, link);
      result.event.LeadCompleted? ==>
      && result.leadId.Some? && OpenLeadOf(w.funnel, ref, result.leadId.value)
      && result.leadId.value < |w'.funnel.leads|
      && w'.funnel.leads[result.leadId.value].status.Fresh?
      && Some(w'.funnel.leads[result.leadId.value].answers) == EngineTurn(words, w, cfg, ref, input).lead
      && ref in w'.chats && w'.chats[ref].status == Some(Closed) && w'.chats[ref].saved == Some(Saved(MENU_STATE, None))
  {
    hide Advance, LinesOf, Delivered, Newest, RecordTurn, LeadsOk;
    if HumanOn(w, ref) || (ref in w.chats && w.chats[ref].status == Some(Closed)) {
      // A fresh start greets: it cannot complete anything.
      TurnShape(words, cfg, INITIAL_STATE, input);
    } else {
      TurnShape(words, cfg, SavedAt(w, ref).engine, input);
      AnswerKeepsLeads(words, n, w, cfg, ref, input, link, false);
    }
  }
}
