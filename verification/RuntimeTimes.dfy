/** Retention over whole runs: how long a chat lives, and how long the sweeps and
    the owner's list can still see it. */
module RuntimeTimes {
  import opened Wrappers
  import opened BotModel
  import opened BotEngine
  import opened ChatKeys
  import opened Conversations

  ghost predicate Listed(w: World, ref: ChatRef) {
    ref.business in w.index && ref.conversation in w.index[ref.business].members
  }

  /** The tenant's index lasts at least until `t`. */
  ghost predicate IndexLasts(w: World, business: string, t: int) {
    business in w.index && (w.index[business].deadline.Some? ==> w.index[business].deadline.value >= t)
  }

  /** A chat's deadline is the one its status calls for, counted from its last
      activity, and has not passed; for 72 hours after its last activity the chat
      is listed, and the index will not expire before those are over. */
  ghost predicate ChatTimes(w: World, ref: ChatRef)
    requires ref in w.chats
  {
    var chat := w.chats[ref];
    && chat.lastActivity <= w.now
    && chat.deadline == DeadlineOf(chat.lastActivity, chat.status)
    && Alive(w.now, chat.deadline)
    && (w.now < chat.lastActivity + 259200 ==>
         Listed(w, ref) && IndexLasts(w, ref.business, chat.lastActivity + 259200))
  }

  ghost predicate TimesOk(w: World) {
    forall ref :: ref in w.chats ==> ChatTimes(w, ref)
  }

  lemma SettleKeepsTimes(w: World, ref: ChatRef, chat: Chat)
    requires TimesOk(w)
    ensures TimesOk(Settle(w, ref, chat))
  {
    var w' := Settle(w, ref, chat);
    forall r | r in w'.chats ensures ChatTimes(w', r) {
      if r != ref { assert ChatTimes(w, r); }
    }
  }

  lemma ForgetKeepsTimes(w: World, ref: ChatRef)
    requires TimesOk(w)
    ensures TimesOk(Forget(w, ref))
  {
    var w' := Forget(w, ref);
    forall r | r in w'.chats ensures ChatTimes(w', r) {
      assert ChatTimes(w, r);
      if r.business == ref.business && Listed(w, r) {
        assert r.conversation in w.index[r.business].members - {ref.conversation};
      }
    }
  }

  lemma AnswerKeepsTimes(
    words: Wording, n: Notices, w: World, cfg: Settings, ref: ChatRef, input: Input, link: Option<string>, stale: bool)
    requires TimesOk(w)
    ensures TimesOk(AnswerTurn(words, n, w, cfg, ref, input, link, stale).0)
  {
    hide *;
    var t := EngineTurn(words, w, cfg, ref, input);
    var r := RecordTurn(n, w.funnel, ref, w.now, SavedAt(w, ref).leadId, t);
    var chat := AnsweredChat(w, ref, input.message, t, Delivered(words, n, t, stale, link), r.lead);
    SettleKeepsTimes(w, ref, chat);
    FunnelIsNoTime(Settle(w, ref, chat), r.funnel);
    AnswerIsSettled(words, n, w, cfg, ref, input, link, stale);
  }

  lemma AnswerIsSettled(
    words: Wording, n: Notices, w: World, cfg: Settings, ref: ChatRef, input: Input, link: Option<string>, stale: bool)
    ensures
      var t := EngineTurn(words, w, cfg, ref, input);
      var r := RecordTurn(n, w.funnel, ref, w.now, SavedAt(w, ref).leadId, t);
      AnswerTurn(words, n, w, cfg, ref, input, link, stale).0
        == Settle(w, ref, AnsweredChat(w, ref, input.message, t, Delivered(words, n, t, stale, link),
          r.lead)).(funnel := r.funnel)
  {
    hide EngineTurn, RecordTurn, AnsweredChat, Delivered, Settle, SavedAt;
  }

  lemma InboundKeepsTimes(
    words: Wording, n: Notices, w: World, cfg: Settings, ref: ChatRef, input: Input, link: Option<string>)
    requires TimesOk(w)
    ensures TimesOk(InboundTurn(words, n, w, cfg, ref, input, link).0)
  {
    hide AnswerTurn, TimesOk, Settle, Forget, Newest, Update;
    ForgetKeepsTimes(w, ref);
    AnswerKeepsTimes(words, n, w, cfg, ref, input, link, false);
    AnswerKeepsTimes(words, n, Forget(w, ref), cfg, ref, input, link, false);
    AnswerKeepsTimes(words, n, Forget(w, ref), cfg, ref, input, link, true);
    var chat := ChatAt(w, ref);
    var heard := chat.(lines := chat.lines + [Line(Customer, input.message)], unread := chat.unread + 1);
    var newest := Newest(w.funnel.leads, ref);
    SettleKeepsTimes(w, ref, heard);
    if newest.Some? {
      FunnelIsNoTime(Settle(w, ref, heard), Update(w.funnel, ref.business, newest.value, Touched(w.now)));
    }
  }

  lemma FunnelIsNoTime(w: World, f: Funnel)
    requires TimesOk(w)
    ensures TimesOk(w.(funnel := f))
  {
    var w' := w.(funnel := f);
    forall r | r in w'.chats ensures ChatTimes(w', r) { assert ChatTimes(w, r); }
  }

  lemma StaleSweepOneKeepsTimes(n: Notices, w: World, business: string)
    requires TimesOk(w)
    ensures TimesOk(StaleSweepOne(n, w, business))
  {
    var w' := StaleSweepOne(n, w, business);
    if business in w.index {
      forall r | r in w'.chats ensures ChatTimes(w', r) {
        assert ChatTimes(w, r);
        if r.business == business && Listed(w, r) {
          assert r.conversation !in Missing(w, business);
          assert r.conversation in w.index[business].members - Missing(w, business);
        }
      }
    }
  }

  lemma {:induction false} StaleSweepKeepsTimes(n: Notices, w: World, businesses: seq<string>)
    requires TimesOk(w)
    ensures TimesOk(StaleSweep(n, w, businesses))
  {
    if businesses != [] {
      StaleSweepKeepsTimes(n, w, businesses[..|businesses| - 1]);
      StaleSweepOneKeepsTimes(n, StaleSweep(n, w, businesses[..|businesses| - 1]), businesses[|businesses| - 1]);
    }
  }

  lemma {:induction false} CloseRefsKeepsTimes(w: World, refs: seq<string>)
    requires TimesOk(w)
    ensures TimesOk(CloseRefs(w, refs))
  {
    if refs != [] {
      var before := CloseRefs(w, refs[..|refs| - 1]);
      CloseRefsKeepsTimes(w, refs[..|refs| - 1]);
      match SplitChatRef(refs[|refs| - 1])
      case None =>
      case Some((b, c)) =>
        SettleKeepsTimes(before, ChatRef(b, c), ChatAt(before, ChatRef(b, c)).(status := Some(Closed)));
    }
  }

  lemma ElapseKeepsTimes(w: World, seconds: nat)
    requires TimesOk(w)
    ensures TimesOk(Elapse(w, seconds))
  {
    var w' := Elapse(w, seconds);
    forall r | r in w'.chats ensures ChatTimes(w', r) { assert ChatTimes(w, r); }
  }

  lemma PerformKeepsTimes(words: Wording, n: Notices, w: World, op: Op)
    requires TimesOk(w)
    ensures TimesOk(Perform(words, n, w, op))
  {
    hide InboundTurn, Elapse, StaleSweepOne, Flip, IdleLeads, RefsOf, Update;
    match op
    case Inbound(ref, cfg, input, link) => InboundKeepsTimes(words, n, w, cfg, ref, input, link);
    case Reply(ref, text) =>
      SettleKeepsTimes(w, ref, ChatAt(w, ref).(lines := ChatAt(w, ref).lines + [Line(Owner, text)]));
    case WriteStatus(ref, status) => SettleKeepsTimes(w, ref, ChatAt(w, ref).(status := Some(status)));
    case Read(ref) =>
      var w' := MarkRead(w, ref);
      forall r | r in w'.chats ensures ChatTimes(w', r) { assert ChatTimes(w, r); }
    case WriteLead(business, lead, status) =>
      FunnelIsNoTime(w, Update(w.funnel, business, lead, Restated(status, w.now)));
    case SweepStale(businesses) => StaleSweepKeepsTimes(n, w, businesses);
    case SweepAbandoned(demo) =>
      var ids := IdleLeads(w.funnel.leads, w.now, demo, |w.funnel.leads|);
      FunnelIsNoTime(w, Flip(w.funnel, ids));
      CloseRefsKeepsTimes(w.(funnel := Flip(w.funnel, ids)), RefsOf(w.funnel, ids));
    case Wait(seconds) => ElapseKeepsTimes(w, seconds);
  }

  /** The retention policy holds after every operation of every run. */
  lemma {:induction false} RetentionHolds(words: Wording, n: Notices, ops: seq<Op>)
    ensures TimesOk(Run(words, n, START, ops))
  {
    if ops != [] {
      RetentionHolds(words, n, ops[..|ops| - 1]);
      PerformKeepsTimes(words, n, Run(words, n, START, ops[..|ops| - 1]), ops[|ops| - 1]);
    }
  }

  /** What the policy says of one chat: a chat waiting for or held by a human
      never expires, every other one lives exactly its window past its last
      activity, and a chat the bot drives is listed as long as it lives. */
  lemma WhatRetentionMeans(w: World, ref: ChatRef, seconds: nat)
    requires TimesOk(w) && ref in w.chats
    ensures
      var chat := w.chats[ref];
      var window := if chat.status == Some(Closed) then 2592000 else 259200;
      && (ref in Elapse(w, seconds).chats <==>
           chat.status == Some(Waiting) || chat.status == Some(Human) || w.now + seconds < chat.lastActivity + window)
      && (ref in Elapse(w, seconds).chats ==> Elapse(w, seconds).chats[ref] == chat)
      && (chat.status == None || chat.status == Some(Bot) ==> Listed(w, ref))
  {
    assert ChatTimes(w, ref);
  }

  /** A tenant's index can expire while a chat that waits for a human lives on:
      the handoff of one chat, one turn of another, and 72 quiet hours. From then
      on the stale sweep no longer closes the waiting chat. */
  lemma WaitingChatOutlivesIndex(n: Notices, words: Wording, w: World, waiting: ChatRef, other: ChatRef)
    requires TimesOk(w) && waiting in w.chats && w.chats[waiting].status == Some(Waiting)
    requires other.business == waiting.business && other != waiting
    requires other !in w.chats
    ensures
      var quiet := Run(words, n, w, [WriteStatus(other, Bot), Wait(72 * 60 * 60)]);
      && waiting in quiet.chats && quiet.chats[waiting].status == Some(Waiting)
      && waiting.business !in quiet.index
      && Idle(quiet, waiting)
      && StaleSweep(n, quiet, [waiting.business]) == quiet
  {
    var ops := [WriteStatus(other, Bot), Wait(72 * 60 * 60)];
    assert ChatTimes(w, waiting);
    assert ops[..1] == [WriteStatus(other, Bot)] && ops[..1][..0] == [];
    var one := SetStatus(w, other, Bot);
    assert Run(words, n, w, ops[..1]) == one by {
      assert Run(words, n, w, ops[..1][..0]) == w;
    }
    var quiet := Elapse(one, 72 * 60 * 60);
    assert Run(words, n, w, ops) == quiet;
    assert one.index[waiting.business].deadline == Some(w.now + 259200);
    assert [waiting.business][..0] == [];
    assert StaleSweep(n, quiet, [waiting.business]) == StaleSweepOne(n, quiet, waiting.business);
  }
}
