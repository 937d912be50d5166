/** Two whole runs from the empty state. In the first the abandoned sweep closes a
    chat that a human is busy with: the customer starts a questionnaire, goes back to
    the menu, asks for a human, and keeps writing to that human for an hour. In the
    second the stale sweep no longer sees a chat that waits for a human. */
module RuntimeScenario {
  import opened Wrappers
  import opened BotModel
  import opened OrderedDict
  import opened Text
  import opened BotEngine
  import opened ChatKeys
  import opened Conversations
  import opened RuntimeHandoff
  import opened Questionnaire
  import opened BotConfig
  import opened ConfigLaws

  /** The bot is on the chat. */
  ghost predicate BotOn(w: World, ref: ChatRef) {
    !HumanOn(w, ref) && (ref in w.chats ==> w.chats[ref].status != Some(Closed))
  }

  /** The chat as a turn leaves it, and the funnel it writes. */
  lemma BotTurn(words: Wording, n: Notices, w: World, cfg: Settings, ref: ChatRef, input: Input)
    requires BotOn(w, ref)
    ensures
      var t := EngineTurn(words, w, cfg, ref, input);
      var r := RecordTurn(n, w.funnel, ref, w.now, SavedAt(w, ref).leadId, t);
      var w' := Perform(words, n, w, Inbound(ref, cfg, input, None));
      var status := StatusAfter(ChatAt(w, ref).status, t.event);
      && w'.now == w.now && w'.funnel == r.funnel && ref in w'.chats
      && w'.chats[ref].status == status && w'.chats[ref].deadline == DeadlineOf(w.now, status)
      && w'.chats[ref].saved == Some(Saved(t.state, if t.state.phase.InFlow? then r.lead else None))
      && w'.chats[ref].lastActivity == w.now
      && w'.index == Enlist(w.index, ref, DeadlineOf(w.now, status))
      && w'.chats.Keys == w.chats.Keys + {ref} && (forall o :: o in w.chats && o != ref ==> w'.chats[o] == w.chats[o])
  {
    hide EngineTurn, RecordTurn, Delivered, LinesOf, Enlist;
  }

  lemma RunMore(words: Wording, n: Notices, ops: seq<Op>, op: Op)
    ensures Run(words, n, START, ops + [op]) == Perform(words, n, Run(words, n, START, ops), op)
  {
    assert (ops + [op])[..|ops|] == ops;
  }

  ghost predicate OwnLead(lead: Lead, ref: ChatRef) {
    lead.business == ref.business && lead.chatRef == ChatRefText(ref.business, ref.conversation)
  }

  /** What the customer sends, and what the configuration makes of it. */
  ghost predicate Plot(words: Wording, cfg: Settings, k: nat, pick: Input, menu: Input, ask: Input) {
    && k < |cfg.flows| && cfg.flows[k].1.flowType.Lead? && cfg.flows[k].1.steps != [] && cfg.flows[k].0 != ""
    && PickFlow(Strip(pick.message), cfg.flows) == Some(k)
    && !MatchesMenuKeyword(words, cfg, Strip(pick.message)) && !MatchesHandoffKeyword(cfg, Strip(pick.message))
    && Strip(menu.message) != "" && menu.media.None? && MatchesMenuKeyword(words, cfg, Strip(menu.message))
    && Strip(ask.message) != "" && ask.media.None?
    && !MatchesMenuKeyword(words, cfg, Strip(ask.message)) && MatchesHandoffKeyword(cfg, Strip(ask.message))
  }

  lemma KeywordTurns(words: Wording, cfg: Settings, st: State, k: nat, pick: Input, menu: Input, ask: Input)
    requires Plot(words, cfg, k, pick, menu, ask)
    ensures st == MENU_STATE ==> Advance(words, cfg, st, pick).state == StartOf(cfg.flows[k].0)
    ensures st == MENU_STATE ==> Advance(words, cfg, st, pick).event.NoEvent?
    ensures st.phase.InFlow? ==> Advance(words, cfg, st, menu).state == MENU_STATE
    ensures st.phase.InFlow? ==> Advance(words, cfg, st, menu).event.NoEvent?
    ensures st == MENU_STATE ==> Advance(words, cfg, st, ask).state == HANDED_OFF_STATE
    ensures st == MENU_STATE ==> Advance(words, cfg, st, ask).event.HandoffRequested?
  {
    PickingStarts(words, cfg, pick, k);
    hide MatchesMenuKeyword, MatchesHandoffKeyword, GreetingAndMenu, HandoffMessage, QuestionText, WithHint, PickFlow,
      FindFlow, MenuList, Strip;
  }

  /** Where the story stands: the engine state and lead saved for the chat. */
  ghost predicate Stands(w: World, ref: ChatRef, status: Option<Status>, st: State, lead: Option<nat>) {
    && ref in w.chats && w.chats[ref].status == status && w.chats[ref].saved == Some(Saved(st, lead))
    && w.chats[ref].lastActivity == w.now && w.chats[ref].deadline == DeadlineOf(w.now, status)
  }

  /** A turn that raises nothing and is in no questionnaire leaves the funnel alone. */
  lemma PlainTurn(words: Wording, n: Notices, w: World, cfg: Settings, ref: ChatRef, input: Input)
    requires BotOn(w, ref) && ChatAt(w, ref).status.None?
    requires var t := EngineTurn(words, w, cfg, ref, input); t.event.NoEvent? && t.state == MENU_STATE
    ensures
      var w' := Perform(words, n, w, Inbound(ref, cfg, input, None));
      && Stands(w', ref, None, MENU_STATE, None) && w'.now == w.now && w'.funnel == w.funnel
      && w'.chats.Keys == w.chats.Keys + {ref}
  {
    hide EngineTurn, Perform;
    BotTurn(words, n, w, cfg, ref, input);
  }

  /** A turn that starts a questionnaire opens a lead. */
  lemma StartingTurn(words: Wording, n: Notices, w: World, cfg: Settings, ref: ChatRef, input: Input, name: string)
    requires Stands(w, ref, None, MENU_STATE, None)
    requires var t := EngineTurn(words, w, cfg, ref, input); t.event.NoEvent? && t.state == StartOf(name)
    ensures
      var w' := Perform(words, n, w, Inbound(ref, cfg, input, None));
      && Stands(w', ref, None, StartOf(name), Some(|w.funnel.leads|)) && w'.now == w.now
      && w'.funnel.leads == Create(w.funnel, ref, name, w.now).leads && w'.chats.Keys == w.chats.Keys
  {
    hide EngineTurn, Perform, ChatRefText;
    BotTurn(words, n, w, cfg, ref, input);
  }

  /** A turn that asks for a human opens another. */
  lemma AskingTurn(words: Wording, n: Notices, w: World, cfg: Settings, ref: ChatRef, input: Input)
    requires Stands(w, ref, None, MENU_STATE, None)
    requires var t := EngineTurn(words, w, cfg, ref, input); t.event.HandoffRequested? && t.state == HANDED_OFF_STATE
    ensures
      var w' := Perform(words, n, w, Inbound(ref, cfg, input, None));
      && Stands(w', ref, Some(Waiting), HANDED_OFF_STATE, None) && w'.now == w.now
      && w'.funnel.leads == Create(w.funnel, ref, n.handoffTitle, w.now).leads && w'.chats.Keys == w.chats.Keys
  {
    hide EngineTurn, Perform, ChatRefText;
    BotTurn(words, n, w, cfg, ref, input);
  }

  lemma CreatedIsOwn(f: Funnel, ref: ChatRef, title: string, now: int)
    ensures
      var leads := Create(f, ref, title, now).leads;
      && |leads| == |f.leads| + 1 && leads[..|f.leads|] == f.leads
      && leads[|f.leads|].status.InProgress? && leads[|f.leads|].lastActivity == now && OwnLead(leads[|f.leads|], ref)
  {
    hide ChatRefText;
  }

  /** The first four messages: greeted, in a questionnaire, back at the menu a
      second later, and handed off, with the first lead still in progress. */
  lemma FirstHalf(
    words: Wording, n: Notices, cfg: Settings, ref: ChatRef, k: nat, greet: Input, pick: Input, menu: Input, ask: Input)
    returns (w: World)
    requires Plot(words, cfg, k, pick, menu, ask)
    ensures w == Run(words, n, START, [
      Inbound(ref, cfg, greet, None), Inbound(ref, cfg, pick, None), Wait(1), Inbound(ref, cfg, menu, None),
      Inbound(ref, cfg, ask, None)])
    ensures w.now == 1 && Stands(w, ref, Some(Waiting), HANDED_OFF_STATE, None) && w.chats.Keys == {ref}
    ensures |w.funnel.leads| == 2 && OwnLead(w.funnel.leads[0], ref) && OwnLead(w.funnel.leads[1], ref)
    ensures w.funnel.leads[0].status.InProgress? && w.funnel.leads[0].lastActivity == 0
    ensures w.funnel.leads[1].lastActivity == 1
  {
    hide Advance, Perform, Run, Create, OwnLead, Plot;
    var name := PlottedFlow(words, cfg, k, pick, menu, ask);
    NothingRun(words, n);
    var ops := [];
    w := START;

    RunMore(words, n, ops, Inbound(ref, cfg, greet, None));
    FreshTurnGreets(words, cfg, greet);
    PlainTurn(words, n, w, cfg, ref, greet);
    ops, w := ops + [Inbound(ref, cfg, greet, None)], Perform(words, n, w, Inbound(ref, cfg, greet, None));

    RunMore(words, n, ops, Inbound(ref, cfg, pick, None));
    KeywordTurns(words, cfg, MENU_STATE, k, pick, menu, ask);
    StartingTurn(words, n, w, cfg, ref, pick, name);
    CreatedIsOwn(w.funnel, ref, name, 0);
    ops, w := ops + [Inbound(ref, cfg, pick, None)], Perform(words, n, w, Inbound(ref, cfg, pick, None));

    RunMore(words, n, ops, Wait(1));
    WaitIs(words, n, w, 1);
    ops, w := ops + [Wait(1)], Elapse(w, 1);

    RunMore(words, n, ops, Inbound(ref, cfg, menu, None));
    KeywordTurns(words, cfg, StartOf(name), k, pick, menu, ask);
    PlainTurn(words, n, w, cfg, ref, menu);
    ops, w := ops + [Inbound(ref, cfg, menu, None)], Perform(words, n, w, Inbound(ref, cfg, menu, None));

    RunMore(words, n, ops, Inbound(ref, cfg, ask, None));
    AskingTurn(words, n, w, cfg, ref, ask);
    CreatedIsOwn(w.funnel, ref, n.handoffTitle, 1);
    ops, w := ops + [Inbound(ref, cfg, ask, None)], Perform(words, n, w, Inbound(ref, cfg, ask, None));
    assert ops == [
      Inbound(ref, cfg, greet, None), Inbound(ref, cfg, pick, None), Wait(1), Inbound(ref, cfg, menu, None),
      Inbound(ref, cfg, ask, None)];
  }

  lemma PlottedFlow(words: Wording, cfg: Settings, k: nat, pick: Input, menu: Input, ask: Input) returns (name: string)
    requires Plot(words, cfg, k, pick, menu, ask)
    ensures k < |cfg.flows| && name == cfg.flows[k].0
  {
    name := cfg.flows[k].0;
  }

  lemma NothingRun(words: Wording, n: Notices)
    ensures Run(words, n, START, []) == START
  {
  }

  lemma WaitIs(words: Wording, n: Notices, w: World, seconds: nat)
    ensures Perform(words, n, w, Wait(seconds)) == Elapse(w, seconds)
  {
  }

  lemma NewestOfTwo(leads: seq<Lead>, ref: ChatRef)
    requires |leads| == 2 && leads[0].lastActivity < leads[1].lastActivity
    requires OwnLead(leads[0], ref) && OwnLead(leads[1], ref)
    ensures Newest(leads, ref) == Some(1)
  {
    assert leads[..1][..0] == [];
  }

  /** The customer writes to the human after half an hour and again after another
      one, and the sweep right after that message closes the chat. */
  lemma BusyChatIsClosed(
    words: Wording, n: Notices, cfg: Settings, ref: ChatRef, k: nat, greet: Input, pick: Input, menu: Input, ask: Input,
    first: Input, second: Input)
    requires Plot(words, cfg, k, pick, menu, ask) && Named(ref)
    ensures
      var ops := [
        Inbound(ref, cfg, greet, None), Inbound(ref, cfg, pick, None), Wait(1), Inbound(ref, cfg, menu, None),
        Inbound(ref, cfg, ask, None), Wait(1800), Inbound(ref, cfg, first, None), Wait(1801),
        Inbound(ref, cfg, second, None)];
      var w := Run(words, n, START, ops);
      var swept := Run(words, n, START, ops + [SweepAbandoned({})]);
      && HumanOn(w, ref) && w.chats[ref].lastActivity == w.now
      && swept.now == w.now && ref in swept.chats && swept.chats[ref].status == Some(Closed)
  {
    hide Advance, Run, Perform, Newest, ChatRefText, AbandonedSweep, Enlist, Named, Plot;
    var w := FirstHalf(words, n, cfg, ref, k, greet, pick, menu, ask);
    var ops := [
      Inbound(ref, cfg, greet, None), Inbound(ref, cfg, pick, None), Wait(1), Inbound(ref, cfg, menu, None),
      Inbound(ref, cfg, ask, None)];

    RunMore(words, n, ops, Wait(1800));
    WaitIs(words, n, w, 1800);
    ops, w := ops + [Wait(1800)], Elapse(w, 1800);

    RunMore(words, n, ops, Inbound(ref, cfg, first, None));
    NewestOfTwo(w.funnel.leads, ref);
    SilentIs(words, n, w, cfg, ref, first);
    ops, w := ops + [Inbound(ref, cfg, first, None)], SilentTurn(w, ref, first.message);
    assert w.funnel.leads[1].lastActivity == 1801;

    RunMore(words, n, ops, Wait(1801));
    WaitIs(words, n, w, 1801);
    ops, w := ops + [Wait(1801)], Elapse(w, 1801);
    NewestOfTwo(w.funnel.leads, ref);

    RunMore(words, n, ops, Inbound(ref, cfg, second, None));
    SilentIs(words, n, w, cfg, ref, second);
    OlderLeadClosesBusyChat(w, {}, ref, 0, 1, second.message);
    ops, w := ops + [Inbound(ref, cfg, second, None)], SilentTurn(w, ref, second.message);
    RunMore(words, n, ops, SweepAbandoned({}));
    SweepIs(words, n, w);
    assert ops == [
      Inbound(ref, cfg, greet, None), Inbound(ref, cfg, pick, None), Wait(1), Inbound(ref, cfg, menu, None),
      Inbound(ref, cfg, ask, None), Wait(1800), Inbound(ref, cfg, first, None), Wait(1801),
      Inbound(ref, cfg, second, None)];
    AbandonedSweepOn(w, {}, ref);
  }

  lemma SilentIs(words: Wording, n: Notices, w: World, cfg: Settings, ref: ChatRef, input: Input)
    requires HumanOn(w, ref) && !Idle(w, ref)
    ensures Perform(words, n, w, Inbound(ref, cfg, input, None)) == SilentTurn(w, ref, input.message)
  {
    hide SilentTurn;
  }

  lemma SweepIs(words: Wording, n: Notices, w: World)
    ensures Perform(words, n, w, SweepAbandoned({})) == AbandonedSweep(w, {})
  {
    hide AbandonedSweep;
  }

  // --- a chat the sweep no longer sees ----------------------------------------------------

  /** Another customer writes once, then 72 hours pass: the customer who asked for a
      human still waits, the tenant's index is gone, and the stale sweep, with the
      chat idle for three days, changes nothing. */
  lemma WaitingChatIsPassedBy(
    words: Wording, n: Notices, cfg: Settings, ref: ChatRef, k: nat, greet: Input, pick: Input, menu: Input, ask: Input,
    other: ChatRef, hello: Input)
    requires Plot(words, cfg, k, pick, menu, ask) && other != ref && other.business == ref.business
    ensures
      var ops := [
        Inbound(ref, cfg, greet, None), Inbound(ref, cfg, pick, None), Wait(1), Inbound(ref, cfg, menu, None),
        Inbound(ref, cfg, ask, None), Inbound(other, cfg, hello, None), Wait(72 * 60 * 60)];
      var w := Run(words, n, START, ops);
      && ref in w.chats && w.chats[ref].status == Some(Waiting) && Idle(w, ref)
      && ref.business !in w.index
      && Run(words, n, START, ops + [SweepStale([ref.business])]) == w
  {
    hide Advance, Run, Perform, Plot, StaleSweep;
    var w := FirstHalf(words, n, cfg, ref, k, greet, pick, menu, ask);
    var ops := [
      Inbound(ref, cfg, greet, None), Inbound(ref, cfg, pick, None), Wait(1), Inbound(ref, cfg, menu, None),
      Inbound(ref, cfg, ask, None)];

    RunMore(words, n, ops, Inbound(other, cfg, hello, None));
    FreshTurnGreets(words, cfg, hello);
    OtherTurn(words, n, w, cfg, ref, other, hello);
    ops, w := ops + [Inbound(other, cfg, hello, None)], Perform(words, n, w, Inbound(other, cfg, hello, None));

    RunMore(words, n, ops, Wait(72 * 60 * 60));
    WaitIs(words, n, w, 72 * 60 * 60);
    ops, w := ops + [Wait(72 * 60 * 60)], Elapse(w, 72 * 60 * 60);
    RunMore(words, n, ops, SweepStale([ref.business]));
    SweepWithoutIndex(words, n, w, ref.business);
    assert ops == [
      Inbound(ref, cfg, greet, None), Inbound(ref, cfg, pick, None), Wait(1), Inbound(ref, cfg, menu, None),
      Inbound(ref, cfg, ask, None), Inbound(other, cfg, hello, None), Wait(72 * 60 * 60)];
  }

  /** A first message of another customer leaves this chat alone and puts 72 hours
      on the index. */
  lemma OtherTurn(words: Wording, n: Notices, w: World, cfg: Settings, ref: ChatRef, other: ChatRef, hello: Input)
    requires ref in w.chats && other !in w.chats && other.business == ref.business
    ensures
      var w' := Perform(words, n, w, Inbound(other, cfg, hello, None));
      && ref in w'.chats && w'.chats[ref] == w.chats[ref] && w'.now == w.now
      && ref.business in w'.index && w'.index[ref.business].deadline == Some(w.now + 259200)
  {
    hide Advance, Perform, RecordTurn;
    FreshTurnGreets(words, cfg, hello);
    BotTurn(words, n, w, cfg, other, hello);
  }

  lemma SweepWithoutIndex(words: Wording, n: Notices, w: World, business: string)
    requires business !in w.index
    ensures Perform(words, n, w, SweepStale([business])) == w
  {
    assert [business][..0] == [];
    assert StaleSweep(n, w, [business]) == StaleSweepOne(n, w, business);
  }

  // --- such a configuration ---------------------------------------------------------------

  /** Such a configuration: one questionnaire, the keywords "menu" and "agent". */
  lemma APlotExists(words: Wording) returns (cfg: Settings, pick: Input, menu: Input, ask: Input)
    ensures Plot(words, cfg, 0, pick, menu, ask) && SettingsBounds(cfg) && WellFormed(cfg)
  {
    hide Strip, Lower, ParseNat, Plot, SettingsBounds;
    var step := Step("name", "Name?", TextStep, true, None, [], None, []);
    var flow := Flow("Offer", FlowType.Lead, [step], None, None);
    cfg := Settings([("offer", flow)], Profile("Shop", "Help.", "", Hebrew, "", "", 60, ["menu"]), ["agent"], true);
    pick, menu, ask := Input("1", None), Input("menu", None), Input("agent", None);
    PlottedWords(words, cfg, pick, menu, ask);
    PlottedBounds(cfg, step, flow);
  }

  lemma PlottedWords(words: Wording, cfg: Settings, pick: Input, menu: Input, ask: Input)
    requires |cfg.flows| == 1 && cfg.flows[0].1.flowType.Lead? && cfg.flows[0].1.steps != [] && cfg.flows[0].0 != ""
    requires cfg.profile.menuKeywords == ["menu"] && cfg.handoffKeywords == ["agent"]
    requires pick == Input("1", None) && menu == Input("menu", None) && ask == Input("agent", None)
    ensures Plot(words, cfg, 0, pick, menu, ask)
  {
    hide Strip, Lower, ParseNat;
    StrippedIsFixed("1");
    StrippedIsFixed("menu");
    StrippedIsFixed("agent");
    LowerAt("1");
    LowerAt("menu");
    LowerAt("agent");
    ParseDecimal(1);
    assert Decimal(1) == "1";
    assert MenuKeywords(words, cfg) == ["menu"];
    assert Lower("agent") <= Lower("agent")[0..];
    assert MenuKeywords(words, cfg)[0] == "menu" && cfg.handoffKeywords[0] == "agent";
  }

  lemma PlottedBounds(cfg: Settings, step: Step, flow: Flow)
    requires step == Step("name", "Name?", TextStep, true, None, [], None, [])
    requires flow == Flow("Offer", FlowType.Lead, [step], None, None)
    requires cfg.flows == [("offer", flow)] && cfg.handoffKeywords == ["agent"]
    requires cfg.profile == Profile("Shop", "Help.", "", Hebrew, "", "", 60, ["menu"])
    ensures SettingsBounds(cfg) && WellFormed(cfg)
  {
    hide StepBounds, FlowBounds, ProfileBounds, FlowsBounds, CleanList;
    PlottedStep(step);
    PlottedOffer(flow);
    PlottedNames(cfg.flows);
    PlottedProfile(cfg.profile);
    OneKeyword("agent");
    assert Unique(cfg.flows);
    ValidatedIsWellFormed(cfg);
  }

  lemma PlottedStep(step: Step)
    requires step == Step("name", "Name?", TextStep, true, None, [], None, [])
    ensures StepBounds(step)
  {
  }

  lemma PlottedOffer(flow: Flow)
    requires flow.labelText == "Offer" && flow.flowType.Lead? && |flow.steps| == 1 && StepBounds(flow.steps[0])
    requires flow.serviceName.None? && flow.message.None?
    ensures FlowBounds(flow)
  {
    hide StepBounds;
  }

  lemma PlottedNames(flows: Dict<Flow>)
    requires |flows| == 1 && flows[0].0 == "offer" && FlowBounds(flows[0].1)
    ensures FlowsBounds(flows)
  {
    hide FlowBounds;
  }

  lemma PlottedProfile(p: Profile)
    requires p == Profile("Shop", "Help.", "", Hebrew, "", "", 60, ["menu"])
    ensures ProfileBounds(p)
  {
    hide CleanList;
    OneKeyword("menu");
  }

  lemma OneKeyword(keyword: string)
    requires Stripped(keyword) && 1 <= |keyword| <= MAX_KEYWORD_CHARS
    ensures CleanList([keyword], true, MAX_KEYWORD_CHARS)
  {
  }
}
