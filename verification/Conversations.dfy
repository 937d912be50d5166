/** The conversation machine in one piece: what each operation means for a chat,
    for the tenant's index of chats, and for the leads and funnel events. A chat
    here has one deadline, its whole transcript and one unread count; the Redis
    keys that hold it are the subject of ConversationStore and BotRuntime. */
module Conversations {
  import opened Wrappers
  import opened BotModel
  import opened BotEngine
  import opened ChatKeys
  import opened Text

  const CONVERSATION_TTL_SECONDS: int := 72 * 60 * 60
  const CLOSED_TTL_SECONDS: int := 30 * 24 * 60 * 60
  const STALE_HANDOFF_SECONDS: int := 3600
  const ABANDONED_AFTER_SECONDS: int := 60 * 60
  const TRANSCRIPT_MAX: nat := 200

  datatype Status = Bot | Waiting | Human | Closed
  datatype Role = Customer | BotRole | Owner
  datatype Line = Line(role: Role, body: string)
  datatype ChatRef = ChatRef(business: string, conversation: string)

  /** The engine state with the id of the lead it is growing. */
  datatype Saved = Saved(engine: State, leadId: Option<nat>)

  datatype Chat = Chat(
    status: Option<Status>,
    saved: Option<Saved>,
    lastActivity: int,
    lines: seq<Line>,
    unread: nat,
    deadline: Option<int>)

  /** A tenant's index of conversations. */
  datatype Listing = Listing(members: set<string>, deadline: Option<int>)

  datatype LeadStatus = InProgress | Fresh | Abandoned | Deal | LeadClosed
  datatype Lead = Lead(
    business: string,
    chatRef: string,
    title: string,
    status: LeadStatus,
    answers: map<string, Answer>,
    lastStep: nat,
    lastActivity: int)

  datatype EventKind = Started | Stepped | Completed | HandoffAsked | Swept
  datatype FunnelEvent = FunnelEvent(lead: Option<nat>, kind: EventKind)

  datatype Funnel = Funnel(leads: seq<Lead>, events: seq<FunnelEvent>)

  datatype World = World(
    now: int,
    chats: map<ChatRef, Chat>,
    index: map<string, Listing>,
    funnel: Funnel)

  datatype TurnResult = TurnResult(replies: seq<string>, event: Event, leadId: Option<nat>, silent: bool)

  // --- time to live ----------------------------------------------------------------

  /** waiting/human never expire; closed lasts 30 days; anything else 72 hours. */
  function DeadlineOf(now: int, status: Option<Status>): Option<int> {
    if status == Some(Waiting) || status == Some(Human) then None
    else if status == Some(Closed) then Some(now + CLOSED_TTL_SECONDS)
    else Some(now + CONVERSATION_TTL_SECONDS)
  }

  function Enlist(index: map<string, Listing>, ref: ChatRef, deadline: Option<int>): map<string, Listing> {
    var members := if ref.business in index then index[ref.business].members else {};
    index[ref.business := Listing(members + {ref.conversation}, deadline)]
  }

  /** Redis drops a set with its last member. */
  function Unlist(index: map<string, Listing>, business: string, gone: set<string>): map<string, Listing> {
    if business !in index || index[business].members !! gone then index
    else if index[business].members - gone == {} then index - {business}
    else index[business := index[business].(members := index[business].members - gone)]
  }

  // --- single chats --------------------------------------------------------------------

  function ChatAt(w: World, ref: ChatRef): Chat {
    if ref in w.chats then w.chats[ref] else Chat(None, None, w.now, [], 0, None)
  }

  /** Store a chat with the deadline its status calls for, and list it. */
  function Settle(w: World, ref: ChatRef, chat: Chat): World {
    var deadline := DeadlineOf(w.now, chat.status);
    w.(chats := w.chats[ref := chat.(lastActivity := w.now, deadline := deadline)],
       index := Enlist(w.index, ref, deadline))
  }

  function Forget(w: World, ref: ChatRef): World {
    w.(chats := w.chats - {ref}, index := Unlist(w.index, ref.business, {ref.conversation}))
  }

  function SetStatus(w: World, ref: ChatRef, status: Status): World {
    Settle(w, ref, ChatAt(w, ref).(status := Some(status)))
  }

  function OwnerReply(w: World, ref: ChatRef, text: string): World {
    var chat := ChatAt(w, ref);
    Settle(w, ref, chat.(lines := chat.lines + [Line(Owner, text)]))
  }

  function MarkRead(w: World, ref: ChatRef): World {
    if ref in w.chats then w.(chats := w.chats[ref := w.chats[ref].(unread := 0)]) else w
  }

  // --- leads ------------------------------------------------------------------------------

  function Create(f: Funnel, ref: ChatRef, title: string, now: int): Funnel {
    f.(leads := f.leads +
         [Lead.Lead(ref.business, ChatRefText(ref.business, ref.conversation), title, InProgress, map[], 0, now)])
  }

  function Log(f: Funnel, lead: Option<nat>, kind: EventKind): Funnel {
    f.(events := f.events + [FunnelEvent(lead, kind)])
  }

  /** `UPDATE leads ... WHERE id AND business_id`. */
  function Update(f: Funnel, business: string, id: nat, lead: Lead -> Lead): Funnel {
    if id < |f.leads| && f.leads[id].business == business then f.(leads := f.leads[id := lead(f.leads[id])]) else f
  }

  function Progressed(answers: map<string, Answer>, lastStep: nat, now: int): Lead -> Lead {
    (l: Lead) => l.(answers := answers, lastStep := lastStep, lastActivity := now)
  }

  function Finished(answers: map<string, Answer>, now: int): Lead -> Lead {
    (l: Lead) => l.(answers := answers, status := Fresh, lastActivity := now)
  }

  function Touched(now: int): Lead -> Lead {
    (l: Lead) => l.(lastActivity := now)
  }

  function Restated(status: LeadStatus, now: int): Lead -> Lead {
    (l: Lead) => l.(status := status, lastActivity := now)
  }

  datatype Recorded = Recorded(funnel: Funnel, lead: Option<nat>)

  /** The texts the runtime itself writes. */
  datatype Notices = Notices(handoffTitle: string, bookingTitle: string, staleClosing: string)

  /** Open a lead when a questionnaire starts, grow it while it runs. */
  function RecordProgress(f: Funnel, ref: ChatRef, now: int, active: Option<nat>, t: Turn): Recorded {
    if !t.state.phase.InFlow? then Recorded(f, active)
    else
      match active
      case None =>
        Recorded(Log(Create(f, ref, t.state.activeFlow.GetOr(""), now), Some(|f.leads|), Started), Some(|f.leads|))
      case Some(id) =>
        var grown := Update(f, ref.business, id, Progressed(t.state.collected, t.state.stepIndex, now));
        Recorded(Log(grown, Some(id), Stepped), Some(id))
  }

  function EnsureLead(f: Funnel, ref: ChatRef, now: int, lead: Option<nat>, title: string): Recorded {
    match lead
    case Some(_) => Recorded(f, lead)
    case None => Recorded(Create(f, ref, title, now), Some(|f.leads|))
  }

  function RecordEvent(n: Notices, f: Funnel, ref: ChatRef, now: int, lead: Option<nat>, t: Turn): Recorded {
    match t.event
    case NoEvent => Recorded(f, lead)
    case LeadCompleted =>
      var done := if lead.Some? then Update(f, ref.business, lead.value, Finished(t.lead.GetOr(map[]), now)) else f;
      Recorded(Log(done, lead, Completed), lead)
    case HandoffRequested =>
      var r := EnsureLead(f, ref, now, lead, n.handoffTitle);
      Recorded(Log(r.funnel, r.lead, HandoffAsked), r.lead)
    case BookingRequested => EnsureLead(f, ref, now, lead, n.bookingTitle)
  }

  function RecordTurn(n: Notices, f: Funnel, ref: ChatRef, now: int, active: Option<nat>, t: Turn): Recorded {
    var r := RecordProgress(f, ref, now, active, t);
    RecordEvent(n, r.funnel, ref, now, r.lead, t)
  }

  /** The newest lead of this chat by last activity, the latest row among equals. */
  function Newest(leads: seq<Lead>, ref: ChatRef): (r: Option<nat>)
    ensures r.Some? ==> r.value < |leads|
  {
    if leads == [] then None
    else
      var before := Newest(leads[..|leads| - 1], ref);
      var last := leads[|leads| - 1];
      if last.business == ref.business && last.chatRef == ChatRefText(ref.business, ref.conversation)
         && (before.None? || leads[before.value].lastActivity <= last.lastActivity)
      then Some(|leads| - 1)
      else before
  }

  // --- one inbound message ------------------------------------------------------------------

  function LinesOf(role: Role, texts: seq<string>): seq<Line> {
    if texts == [] then [] else LinesOf(role, texts[..|texts| - 1]) + [Line(role, texts[|texts| - 1])]
  }

  /** A human is on the chat: record the message, answer nothing. */
  function SilentTurn(w: World, ref: ChatRef, message: string): World {
    var chat := ChatAt(w, ref);
    var newest := Newest(w.funnel.leads, ref);
    var heard := Settle(w, ref, chat.(lines := chat.lines + [Line(Customer, message)], unread := chat.unread + 1));
    if newest.Some? then heard.(funnel := Update(w.funnel, ref.business, newest.value, Touched(w.now))) else heard
  }

  /** The replies as sent: a closing notice after a stale handoff, and the real
      booking link in place of the demo one. */
  function Delivered(words: Wording, n: Notices, t: Turn, stale: bool, link: Option<string>): seq<string> {
    var replies := (if stale then [n.staleClosing] else []) + t.replies;
    if t.event.BookingRequested? && link.Some? && link.value != "" && words.demoLink != ""
    then Relinked(replies, words.demoLink, link.value)
    else replies
  }

  function Relinked(replies: seq<string>, demo: string, link: string): seq<string>
    requires demo != ""
  {
    if replies == [] then [] else [ReplaceAll(replies[0], demo, link)] + Relinked(replies[1..], demo, link)
  }

  function StatusAfter(status: Option<Status>, event: Event): Option<Status> {
    match event
    case NoEvent => status
    case HandoffRequested => Some(Waiting)
    case LeadCompleted => Some(Closed)
    case BookingRequested => Some(Closed)
  }

  function SavedAt(w: World, ref: ChatRef): Saved {
    ChatAt(w, ref).saved.GetOr(Saved(INITIAL_STATE, None))
  }

  /** The engine turn on the saved state. */
  function EngineTurn(words: Wording, w: World, cfg: Settings, ref: ChatRef, input: Input): Turn {
    Advance(words, cfg, SavedAt(w, ref).engine, input)
  }

  /** The chat after the bot answered with `t`. */
  function AnsweredChat(
    w: World, ref: ChatRef, message: string, t: Turn, replies: seq<string>, lead: Option<nat>): Chat
  {
    var chat := ChatAt(w, ref);
    Chat(
      StatusAfter(chat.status, t.event),
      Some(Saved(t.state, if t.state.phase.InFlow? then lead else None)),
      w.now,
      chat.lines + [Line(Customer, message)] + LinesOf(BotRole, replies),
      chat.unread + 1,
      None)
  }

  /** The bot answers: the engine turn, its leads and events, its replies. */
  function AnswerTurn(
    words: Wording, n: Notices, w: World, cfg: Settings, ref: ChatRef, input: Input, link: Option<string>, stale: bool
  ): (World, TurnResult) {
    var t := EngineTurn(words, w, cfg, ref, input);
    var r := RecordTurn(n, w.funnel, ref, w.now, SavedAt(w, ref).leadId, t);
    var replies := Delivered(words, n, t, stale, link);
    (Settle(w, ref, AnsweredChat(w, ref, input.message, t, replies, r.lead)).(funnel := r.funnel),
     TurnResult(replies, t.event, r.lead, false))
  }

  predicate HumanOn(w: World, ref: ChatRef) {
    ref in w.chats && (w.chats[ref].status == Some(Waiting) || w.chats[ref].status == Some(Human))
  }

  predicate Idle(w: World, ref: ChatRef) {
    ref in w.chats && w.now - w.chats[ref].lastActivity > STALE_HANDOFF_SECONDS
  }

  /** One inbound message: silence while a human is on the chat, a fresh start
      after a close or an unanswered handoff, an engine turn otherwise. */
  function InboundTurn(
    words: Wording, n: Notices, w: World, cfg: Settings, ref: ChatRef, input: Input, link: Option<string>
  ): (World, TurnResult) {
    if HumanOn(w, ref) then
      if Idle(w, ref) then AnswerTurn(words, n, Forget(w, ref), cfg, ref, input, link, true)
      else (SilentTurn(w, ref, input.message), TurnResult([], NoEvent, None, true))
    else if ref in w.chats && w.chats[ref].status == Some(Closed) then
      AnswerTurn(words, n, Forget(w, ref), cfg, ref, input, link, false)
    else AnswerTurn(words, n, w, cfg, ref, input, link, false)
  }

  // --- the sweeps -------------------------------------------------------------------------------

  /** A listed chat the stale sweep closes. */
  predicate StaleClosable(w: World, ref: ChatRef) {
    && ref in w.chats && Idle(w, ref)
    && w.chats[ref].status != Some(Closed)
    && ref.business in w.index && ref.conversation in w.index[ref.business].members
  }

  function ClosedNow(w: World, chat: Chat, notice: string): Chat {
    Chat(Some(Closed), chat.saved, w.now, chat.lines + [Line(BotRole, notice)], chat.unread,
      DeadlineOf(w.now, Some(Closed)))
  }

  function Missing(w: World, business: string): set<string>
    requires business in w.index
  {
    set c | c in w.index[business].members && ChatRef(business, c) !in w.chats
  }

  /** One tenant's pass: prune the index, close every listed idle chat. */
  function StaleSweepOne(n: Notices, w: World, business: string): World {
    if business !in w.index then w
    else
      var due := set ref | ref in w.chats && ref.business == business && StaleClosable(w, ref);
      var pruned := Unlist(w.index, business, Missing(w, business));
      w.(chats := map ref | ref in w.chats ::
           if ref in due then ClosedNow(w, w.chats[ref], n.staleClosing) else w.chats[ref],
         index := if due == {} then pruned
                  else pruned[business := Listing(w.index[business].members - Missing(w, business),
                    DeadlineOf(w.now, Some(Closed)))])
  }

  /** The stale sweep over the tenants in the order their index keys are met. */
  function StaleSweep(n: Notices, w: World, businesses: seq<string>): World {
    if businesses == [] then w
    else StaleSweepOne(n, StaleSweep(n, w, businesses[..|businesses| - 1]), businesses[|businesses| - 1])
  }

  predicate IdleLead(leads: seq<Lead>, now: int, demo: set<string>, id: nat)
    requires id < |leads|
  {
    leads[id].status.InProgress? && leads[id].lastActivity < now - ABANDONED_AFTER_SECONDS &&
      leads[id].business !in demo
  }

  /** The leads below `bound` that the abandoned sweep flips. */
  function IdleLeads(leads: seq<Lead>, now: int, demo: set<string>, bound: nat): seq<nat>
    requires bound <= |leads|
    ensures forall i :: 0 <= i < |IdleLeads(leads, now, demo, bound)| ==> IdleLeads(leads, now, demo, bound)[i] < bound
  {
    if bound == 0 then []
    else IdleLeads(leads, now, demo, bound - 1) + (if IdleLead(leads, now, demo, bound - 1) then [bound - 1] else [])
  }

  /** The definer function: flip the rows and log one event each. */
  function Flip(f: Funnel, ids: seq<nat>): Funnel
    requires forall i :: 0 <= i < |ids| ==> ids[i] < |f.leads|
    ensures |Flip(f, ids).leads| == |f.leads|
  {
    if ids == [] then f
    else
      var before := Flip(f, ids[..|ids| - 1]);
      var id := ids[|ids| - 1];
      Log(before.(leads := before.leads[id := before.leads[id].(status := Abandoned)]), Some(id), Swept)
  }

  /** Close the chat each flipped row points at. */
  function CloseRefs(w: World, refs: seq<string>): World {
    if refs == [] then w
    else
      var before := CloseRefs(w, refs[..|refs| - 1]);
      match SplitChatRef(refs[|refs| - 1])
      case None => before
      case Some((business, conversation)) => SetStatus(before, ChatRef(business, conversation), Closed)
  }

  function RefsOf(f: Funnel, ids: seq<nat>): seq<string>
    requires forall i :: 0 <= i < |ids| ==> ids[i] < |f.leads|
  {
    if ids == [] then [] else RefsOf(f, ids[..|ids| - 1]) + [f.leads[ids[|ids| - 1]].chatRef]
  }

  function AbandonedSweep(w: World, demo: set<string>): World {
    var ids := IdleLeads(w.funnel.leads, w.now, demo, |w.funnel.leads|);
    CloseRefs(w.(funnel := Flip(w.funnel, ids)), RefsOf(w.funnel, ids))
  }

  // --- time ----------------------------------------------------------------------------------------

  predicate Alive(now: int, deadline: Option<int>) { deadline.None? || now < deadline.value }

  /** Time passes and expired keys disappear. */
  function Elapse(w: World, seconds: nat): World {
    var now := w.now + seconds;
    World(now,
      map ref | ref in w.chats && Alive(now, w.chats[ref].deadline) :: w.chats[ref],
      map b | b in w.index && Alive(now, w.index[b].deadline) :: w.index[b],
      w.funnel)
  }

  // --- runs -----------------------------------------------------------------------------------------

  datatype Op =
    | Inbound(ref: ChatRef, cfg: Settings, input: Input, link: Option<string>)
    | Reply(ref: ChatRef, text: string)
    | WriteStatus(ref: ChatRef, status: Status)
    | Read(ref: ChatRef)
    | WriteLead(business: string, lead: nat, leadStatus: LeadStatus)
    | SweepStale(businesses: seq<string>)
    | SweepAbandoned(demo: set<string>)
    | Wait(seconds: nat)

  function Perform(words: Wording, n: Notices, w: World, op: Op): World {
    match op
    case Inbound(ref, cfg, input, link) => InboundTurn(words, n, w, cfg, ref, input, link).0
    case Reply(ref, text) => OwnerReply(w, ref, text)
    case WriteStatus(ref, status) => SetStatus(w, ref, status)
    case Read(ref) => MarkRead(w, ref)
    case WriteLead(business, lead, status) => w.(funnel := Update(w.funnel, business, lead, Restated(status, w.now)))
    case SweepStale(businesses) => StaleSweep(n, w, businesses)
    case SweepAbandoned(demo) => AbandonedSweep(w, demo)
    case Wait(seconds) => Elapse(w, seconds)
  }

  function Run(words: Wording, n: Notices, w: World, ops: seq<Op>): World {
    if ops == [] then w
    else Perform(words, n, Run(words, n, w, ops[..|ops| - 1]), ops[|ops| - 1])
  }

  const START := World(0, map[], map[], Funnel([], []))
}
