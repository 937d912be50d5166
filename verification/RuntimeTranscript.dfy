/** The owner's view: the transcript and the unread badge of a chat are functions
    of what was said and read in it since it last started over. */
module RuntimeTranscript {
  import opened Wrappers
  import opened BotModel
  import opened BotEngine
  import opened Conversations
  import opened RuntimeHandoff

  datatype Entry = Said(line: Line) | Opened

  /** A message that finds the chat closed, or handed to a human who let it idle,
      starts the chat over. */
  ghost predicate StartsOver(w: World, ref: ChatRef) {
    (HumanOn(w, ref) && Idle(w, ref)) || (ref in w.chats && w.chats[ref].status == Some(Closed))
  }

  ghost function SaidAll(lines: seq<Line>): seq<Entry> {
    if lines == [] then [] else SaidAll(lines[..|lines| - 1]) + [Said(lines[|lines| - 1])]
  }

  /** What one operation adds to the history `h` of a chat that it leaves in being. */
  ghost function Extended(words: Wording, n: Notices, w: World, h: seq<Entry>, op: Op, ref: ChatRef): seq<Entry> {
    match op
    case Inbound(r, cfg, input, link) =>
      if r != ref then h
      else (if StartsOver(w, ref) then [] else h) + [Said(Line(Customer, input.message))]
           + SaidAll(LinesOf(BotRole, InboundTurn(words, n, w, cfg, ref, input, link).1.replies))
    case Reply(r, text) => if r == ref then h + [Said(Line(Owner, text))] else h
    case Read(r) => if r == ref then h + [Opened] else h
    case SweepStale(businesses) =>
      if ref.business in businesses && StaleClosable(w, ref) then h + [Said(Line(BotRole, n.staleClosing))] else h
    case _ => h
  }

  /** The history of a chat over a run; a chat that expired has none. */
  ghost function History(words: Wording, n: Notices, ops: seq<Op>, ref: ChatRef): seq<Entry> {
    if ops == [] || ref !in Run(words, n, START, ops).chats then []
    else
      var front := ops[..|ops| - 1];
      Extended(words, n, Run(words, n, START, front), History(words, n, front, ref), ops[|ops| - 1], ref)
  }

  ghost function LinesIn(h: seq<Entry>): seq<Line> {
    if h == [] then []
    else match h[|h| - 1]
      case Said(line) => LinesIn(h[..|h| - 1]) + [line]
      case Opened => LinesIn(h[..|h| - 1])
  }

  /** Customer messages since the owner last opened the chat. */
  ghost function Unseen(h: seq<Entry>): nat {
    if h == [] then 0
    else match h[|h| - 1]
      case Opened => 0
      case Said(line) => Unseen(h[..|h| - 1]) + (if line.role.Customer? then 1 else 0)
  }

  lemma OneMore(h: seq<Entry>, e: Entry)
    ensures LinesIn(h + [e]) == match e case Said(line) => LinesIn(h) + [line] case Opened => LinesIn(h)
    ensures Unseen(h + [e]) ==
      match e case Opened => 0 case Said(line) => Unseen(h) + if line.role.Customer? then 1 else 0
  {
    assert (h + [e])[..|h|] == h;
  }

  lemma {:induction false} BotSaysAll(h: seq<Entry>, replies: seq<string>)
    ensures LinesIn(h + SaidAll(LinesOf(BotRole, replies))) == LinesIn(h) + LinesOf(BotRole, replies)
    ensures Unseen(h + SaidAll(LinesOf(BotRole, replies))) == Unseen(h)
  {
    hide LinesIn, Unseen;
    if replies == [] {
      assert h + [] == h;
    } else {
      var (front, last) := (replies[..|replies| - 1], Line(BotRole, replies[|replies| - 1]));
      BotSaysAll(h, front);
      var (before, after) := (LinesOf(BotRole, front), LinesOf(BotRole, replies));
      assert after[..|after| - 1] == before;
      assert h + SaidAll(after) == (h + SaidAll(before)) + [Said(last)];
      OneMore(h + SaidAll(before), Said(last));
    }
  }

  /** The chat shows exactly this history. */
  ghost predicate Shows(w: World, ref: ChatRef, h: seq<Entry>) {
    ChatAt(w, ref).lines == LinesIn(h) && ChatAt(w, ref).unread == Unseen(h)
  }

  lemma AnswerShows(
    words: Wording, n: Notices, w: World, cfg: Settings, r: ChatRef, input: Input, link: Option<string>, stale: bool,
    ref: ChatRef, h: seq<Entry>)
    requires Shows(w, ref, h)
    ensures
      var (w', result) := AnswerTurn(words, n, w, cfg, r, input, link, stale);
      Shows(w', ref,
            if r == ref then h + [Said(Line(Customer, input.message))] + SaidAll(LinesOf(BotRole, result.replies))
            else h)
  {
    hide LinesIn, Unseen, SaidAll, LinesOf, Delivered, RecordTurn, EngineTurn, StatusAfter;
    var result := AnswerTurn(words, n, w, cfg, r, input, link, stale).1;
    OneMore(h, Said(Line(Customer, input.message)));
    BotSaysAll(h + [Said(Line(Customer, input.message))], result.replies);
  }

  lemma InboundShows(
    words: Wording, n: Notices, w: World, cfg: Settings, r: ChatRef, input: Input, link: Option<string>, ref: ChatRef,
    h: seq<Entry>)
    requires Shows(w, ref, h)
    ensures Shows(InboundTurn(words, n, w, cfg, r, input, link).0, ref,
      Extended(words, n, w, h, Inbound(r, cfg, input, link), ref))
  {
    hide LinesIn, Unseen, SaidAll, AnswerTurn, LinesOf, Newest, Update;
    var start := if r == ref then [] else h;
    assert Shows(Forget(w, r), ref, start) by { EmptyHistory(); }
    AnswerShows(words, n, w, cfg, r, input, link, false, ref, h);
    AnswerShows(words, n, Forget(w, r), cfg, r, input, link, false, ref, start);
    AnswerShows(words, n, Forget(w, r), cfg, r, input, link, true, ref, start);
    if r == ref && HumanOn(w, r) && !Idle(w, r) {
      OneMore(h, Said(Line(Customer, input.message)));
      BotSaysAll(h + [Said(Line(Customer, input.message))], []);
      EmptyHistory();
      assert LinesOf(BotRole, []) == [] by { NoLines(); }
      assert h + [Said(Line(Customer, input.message))] + [] == h + [Said(Line(Customer, input.message))];
    }
  }

  lemma NoLines()
    ensures LinesOf(BotRole, []) == []
  {
  }

  lemma EmptyHistory()
    ensures LinesIn([]) == [] && Unseen([]) == 0 && SaidAll([]) == []
  {
  }

  /** Every operation extends what a chat shows exactly as it extends its history. */
  lemma PerformShows(words: Wording, n: Notices, w: World, op: Op, ref: ChatRef, h: seq<Entry>)
    requires Shows(w, ref, h)
    ensures var w' := Perform(words, n, w, op);
      Shows(w', ref, if ref in w'.chats then Extended(words, n, w, h, op, ref) else [])
  {
    hide InboundTurn, StaleSweep, CloseRefs, StaleClosable, LinesIn, Unseen, Update, Flip, IdleLeads, RefsOf;
    EmptyHistory();
    match op
    case Inbound(r, cfg, input, link) =>
      InboundShows(words, n, w, cfg, r, input, link, ref, h);
    case Reply(r, text) => OneMore(h, Said(Line(Owner, text)));
    case Read(r) => OneMore(h, Opened);
    case SweepStale(businesses) =>
      StaleSweepOn(n, w, businesses, ref);
      StaleClosableExists(w, ref);
      OneMore(h, Said(Line(BotRole, n.staleClosing)));
    case SweepAbandoned(demo) =>
      var ids := IdleLeads(w.funnel.leads, w.now, demo, |w.funnel.leads|);
      CloseRefsOn(w.(funnel := Flip(w.funnel, ids)), RefsOf(w.funnel, ids), ref);
    case _ =>
  }

  lemma StaleClosableExists(w: World, ref: ChatRef)
    ensures StaleClosable(w, ref) ==> ref in w.chats
  {
  }

  /** Over every run the transcript is the whole history since the chat last
      started over, and the badge counts the customer's messages since the owner
      last opened it. */
  lemma {:induction false} TranscriptAndBadge(words: Wording, n: Notices, ops: seq<Op>, ref: ChatRef)
    ensures Shows(Run(words, n, START, ops), ref, History(words, n, ops, ref))
  {
    hide Perform, Extended;
    if ops != [] {
      var front := ops[..|ops| - 1];
      TranscriptAndBadge(words, n, front, ref);
      PerformShows(words, n, Run(words, n, START, front), ops[|ops| - 1], ref, History(words, n, front, ref));
    }
  }
}
