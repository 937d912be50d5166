/** What the customer is told: the reply of a turn, read off the state it leads to,
    the configuration and the event, for every wording. */
module ReplyLaws {
  import opened Wrappers
  import opened BotModel
  import opened OrderedDict
  import opened Text
  import opened BotEngine
  import opened EngineLaws

  /** The fixed texts are what they are in every wording: not blank, and without
      white space where another text is put next to them. */
  ghost predicate Worded(w: Wording) {
    && w.attachHint != "" && !IsSpace(w.attachHint[0])
    && w.skipHint != "" && !IsSpace(w.skipHint[|w.skipHint| - 1])
    && Labelled(w.imageLabel) && Labelled(w.pdfLabel) && Labelled(w.docLabel) && Labelled(w.pptLabel)
    && w.nudge != "" && !IsSpace(w.nudge[0])
    && w.fileExpected != "" && w.fileWrongKind != ""
  }

  ghost predicate Labelled(s: string) { s != "" && Stripped(s) }

  predicate EndsIn(s: string, end: string) { |end| <= |s| && s[|s| - |end|..] == end }

  // --- questions -------------------------------------------------------------------

  function LabelOf(w: Wording, kind: Kind): string {
    match kind
    case Image => w.imageLabel
    case Pdf => w.pdfLabel
    case Doc => w.docLabel
    case Ppt => w.pptLabel
  }

  /** The kinds the owner lists for a file step, or every kind. */
  ghost predicate Wanted(step: Step, kind: Kind) {
    (exists i :: 0 <= i < |step.accept| && KindNamed(step.accept[i]) == Some(kind)) ||
    forall i :: 0 <= i < |step.accept| ==> KindNamed(step.accept[i]).None?
  }

  /** The reply puts the question of this step: it begins with the owner's text and
      ends with the hint, with every option numbered, or every wanted kind of file
      named, in between. */
  ghost predicate Puts(w: Wording, step: Step, reply: string) {
    && Strip(step.question) <= reply && EndsIn(reply, w.menuHint)
    && (step.kind.ChoiceStep? ==>
          forall i :: 0 <= i < |step.options| ==> Contains(reply, Decimal(i + 1) + ". " + step.options[i]))
    && (step.kind.FileStep? ==>
          && Contains(reply, w.attachHint) && (step.required || Contains(reply, w.skipHint))
          && forall kind :: Wanted(step, kind) ==> Contains(reply, LabelOf(w, kind)))
    && (!step.kind.ChoiceStep? && !step.kind.FileStep? && Strip(step.question) != "" ==>
          reply == Strip(step.question) + "\n\n" + w.menuHint)
  }

  /** Options as validation leaves them. */
  ghost predicate OptionsClean(step: Step) {
    forall i :: 0 <= i < |step.options| ==> step.options[i] != "" && Stripped(step.options[i])
  }

  lemma {:induction false} KindIsKnown(names: seq<string>, kind: Kind)
    ensures kind in KnownKinds(names) <==> exists i :: 0 <= i < |names| && KindNamed(names[i]) == Some(kind)
  {
    hide KindNamed;
    if names != [] {
      KindIsKnown(names[1..], kind);
      if i :| 0 <= i < |names| && KindNamed(names[i]) == Some(kind) && i > 0 {
        assert names[1..][i - 1] == names[i];
      }
      if i :| 0 <= i < |names[1..]| && KindNamed(names[1..][i]) == Some(kind) {
        assert names[i + 1] == names[1..][i];
      }
    }
  }

  lemma {:induction false} NothingKnown(names: seq<string>)
    ensures KnownKinds(names) == [] <==> forall i :: 0 <= i < |names| ==> KindNamed(names[i]).None?
  {
    hide KindNamed;
    if names != [] {
      NothingKnown(names[1..]);
      assert forall i :: 1 <= i < |names| ==> names[i] == names[1..][i - 1];
    }
  }

  lemma WantedIsAccepted(step: Step, kind: Kind)
    ensures kind in AcceptedKinds(step) <==> Wanted(step, kind)
  {
    hide KindNamed, KnownKinds;
    KindIsKnown(step.accept, kind);
    NothingKnown(step.accept);
  }

  lemma {:induction false} LabelsAre(w: Wording, kinds: seq<Kind>)
    ensures |KindLabels(w, kinds)| == |kinds|
    ensures forall i :: 0 <= i < |kinds| ==> KindLabels(w, kinds)[i] == LabelOf(w, kinds[i])
  {
    if kinds != [] { LabelsAre(w, kinds[1..]); }
  }

  /** The phrase names every kind, and ends with the last one. */
  lemma PhraseNames(w: Wording, kinds: seq<Kind>)
    requires kinds != [] && Worded(w)
    ensures forall kind :: kind in kinds ==> Contains(KindsPhrase(w, kinds), LabelOf(w, kind))
    ensures KindsPhrase(w, kinds) != "" && !IsSpace(KindsPhrase(w, kinds)[|KindsPhrase(w, kinds)| - 1])
  {
    hide Join, Contains;
    LabelsAre(w, kinds);
    var labels := KindLabels(w, kinds);
    var phrase := KindsPhrase(w, kinds);
    var n := |labels|;
    forall kind | kind in kinds ensures Contains(phrase, LabelOf(w, kind)) {
      var i :| 0 <= i < n && kinds[i] == kind;
      if n == 1 {
        Inside("", labels[0], "");
        assert "" + labels[0] + "" == phrase;
      } else if i == n - 1 {
        Inside(Join(labels[..n - 1], ", ") + w.orWord, labels[i], "");
        assert Join(labels[..n - 1], ", ") + w.orWord + labels[i] + "" == phrase;
      } else {
        JoinedIsInside(labels[..n - 1], ", ", i);
        InsideOf("", Join(labels[..n - 1], ", "), w.orWord + labels[n - 1], labels[i]);
        assert "" + Join(labels[..n - 1], ", ") + (w.orWord + labels[n - 1]) == phrase;
      }
    }
  }

  lemma {:induction false} OptionLinesAre(options: seq<string>, from: nat)
    requires from <= |options|
    ensures |OptionLines(options, from)| == |options| - from
    ensures forall i :: from <= i < |options| ==>
      OptionLines(options, from)[i - from] == Decimal(i + 1) + ". " + options[i]
    decreases |options| - from
  {
    hide Decimal;
    if from < |options| {
      OptionLinesAre(options, from + 1);
      assert OptionLines(options, from) == [OptionLine(options, from)] + OptionLines(options, from + 1);
    }
  }

  /** The options of a choice as one text. */
  lemma OptionsAsText(options: seq<string>)
    requires options != [] && forall i :: 0 <= i < |options| ==> options[i] != "" && Stripped(options[i])
    ensures
      var text := Join(OptionLines(options, 0), "\n");
      && text != "" && !IsSpace(text[0]) && !IsSpace(text[|text| - 1])
      && forall i :: 0 <= i < |options| ==> Contains(text, Decimal(i + 1) + ". " + options[i])
  {
    hide Join, Contains, Decimal, OptionLines;
    OptionLinesAre(options, 0);
    var lines := OptionLines(options, 0);
    forall i | 0 <= i < |options|
      ensures lines[i] != "" && !IsSpace(lines[i][0]) && !IsSpace(lines[i][|lines[i]| - 1])
      ensures Contains(Join(lines, "\n"), lines[i])
    {
      ParseDecimal(i + 1);
      assert lines[i] == Decimal(i + 1) + ". " + options[i];
      assert lines[i][0] == Decimal(i + 1)[0];
      assert lines[i][|lines[i]| - 1] == options[i][|options[i]| - 1];
      JoinedIsInside(lines, "\n", i);
    }
    JoinEnds(lines, "\n");
    forall i | 0 <= i < |options| ensures Contains(Join(lines, "\n"), Decimal(i + 1) + ". " + options[i]) {
      assert lines[i] == Decimal(i + 1) + ". " + options[i];
    }
  }

  /** The body of a question below the owner's text. */
  lemma Below(question: string, body: string, hint: string)
    requires Stripped(question) && body != "" && !IsSpace(body[0]) && !IsSpace(body[|body| - 1])
    ensures
      var text := if question == "" then body else question + "\n" + body;
      && text != "" && Stripped(text) && question <= text + "\n\n" + hint && EndsIn(text + "\n\n" + hint, hint)
      && forall needle :: Contains(body, needle) ==> Contains(text + "\n\n" + hint, needle)
  {
    hide Contains;
    var text := if question == "" then body else question + "\n" + body;
    var before := if question == "" then "" else question + "\n";
    assert text == before + body;
    forall needle | Contains(body, needle) ensures Contains(text + "\n\n" + hint, needle) {
      InsideOf(before, body, "\n\n" + hint, needle);
      assert before + body + ("\n\n" + hint) == text + "\n\n" + hint;
    }
  }

  lemma QuestionIsPut(w: Wording, step: Step)
    requires Worded(w) && OptionsClean(step)
    ensures Puts(w, step, WithHint(w, QuestionText(w, step)))
  {
    hide Strip, Join, Contains, Decimal, OptionLines, KindsPhrase, AcceptedKinds, Wanted, EndsIn;
    var question := Strip(step.question);
    StripIsStripped(step.question);
    if step.kind.FileStep? {
      FileQuestionIsPut(w, step);
    } else if step.kind.ChoiceStep? && step.options != [] {
      OptionsAsText(step.options);
      Below(question, Join(OptionLines(step.options, 0), "\n"), w.menuHint);
      StrippedIsFixed(QuestionText(w, step));
    } else {
      StrippedIsFixed(question);
      PlainEnds(question, w.menuHint);
    }
  }

  lemma PlainEnds(text: string, hint: string)
    ensures EndsIn(hint, hint) && EndsIn(text + "\n\n" + hint, hint) && text <= text + "\n\n" + hint
  {
  }

  /** What stands below the owner's text of a file step. */
  function FileHint(w: Wording, step: Step): string {
    w.attachHint + KindsPhrase(w, AcceptedKinds(step)) + (if step.required then "" else w.skipHint)
  }

  lemma FileHintNames(w: Wording, step: Step)
    requires Worded(w)
    ensures
      var body := FileHint(w, step);
      && body != "" && !IsSpace(body[0]) && !IsSpace(body[|body| - 1])
      && Contains(body, w.attachHint) && (step.required || Contains(body, w.skipHint))
      && forall kind :: Wanted(step, kind) ==> Contains(body, LabelOf(w, kind))
  {
    hide Contains, KindsPhrase, AcceptedKinds, Wanted;
    AcceptedIsSome(step);
    PhraseNames(w, AcceptedKinds(step));
    var phrase := KindsPhrase(w, AcceptedKinds(step));
    var skip := if step.required then "" else w.skipHint;
    var body := w.attachHint + phrase + skip;
    Inside("", w.attachHint, phrase + skip);
    assert "" + w.attachHint + (phrase + skip) == body;
    Inside(w.attachHint + phrase, skip, "");
    assert w.attachHint + phrase + skip + "" == body;
    assert body[|body| - 1] == if step.required then phrase[|phrase| - 1] else skip[|skip| - 1];
    forall kind | Wanted(step, kind) ensures Contains(body, LabelOf(w, kind)) {
      WantedIsAccepted(step, kind);
      InsideOf(w.attachHint, phrase, skip, LabelOf(w, kind));
    }
  }

  lemma FileQuestionIsPut(w: Wording, step: Step)
    requires Worded(w) && step.kind.FileStep?
    ensures Puts(w, step, WithHint(w, QuestionText(w, step)))
  {
    var question := Strip(step.question);
    var body := FileHint(w, step);
    StripIsStripped(step.question);
    FileHintNames(w, step);
    assert QuestionText(w, step) == if question == "" then body else question + "\n" + body;
    hide Strip, Contains, FileHint, Wanted, EndsIn, QuestionText, Worded, Stripped;
    Below(question, body, w.menuHint);
    StrippedIsFixed(QuestionText(w, step));
  }

  lemma AcceptedIsSome(step: Step)
    ensures AcceptedKinds(step) != []
  {
  }

  /** Whenever a turn enters a questionnaire or moves it on, the reply puts the
      question of the step the conversation now stands on. */
  lemma OpenStepIsAsked(w: Wording, cfg: Settings, st: State, input: Input)
    requires Worded(w) && WellFormed(cfg)
    requires forall i, j :: 0 <= i < |cfg.flows| && 0 <= j < |cfg.flows[i].1.steps| ==>
      OptionsClean(cfg.flows[i].1.steps[j])
    ensures
      var t := Advance(w, cfg, st, input);
      t.state.phase.InFlow? && (st.phase.InFlow? ==> t.state.stepIndex != st.stepIndex) ==>
        OpenStep(cfg, t.state).Some? && |t.replies| == 1 && Puts(w, OpenStep(cfg, t.state).value, t.replies[0])
  {
    hide ValidateAnswer, MatchesMenuKeyword, MatchesHandoffKeyword, IsBlank, AnswersFileStep, Strip, OptionsClean,
      GreetingAndMenu, HandoffMessage, ErrorText, WithHint, NormalizeMedia, MenuList, PickFlow, QuestionText, Puts,
      Worded;
    var t := Advance(w, cfg, st, input);
    if t.state.phase.InFlow? && (st.phase.InFlow? ==> t.state.stepIndex != st.stepIndex) {
      if st.phase.InFlow? {
        var flow := FindFlow(cfg.flows, st.activeFlow).value;
        FlowIsListed(cfg.flows, st.activeFlow);
        QuestionIsPut(w, flow.steps[st.stepIndex + 1]);
      } else {
        var k := PickFlow(Strip(input.message), cfg.flows).value;
        GetAt(cfg.flows, k);
        QuestionIsPut(w, cfg.flows[k].1.steps[0]);
      }
    }
  }

  lemma FlowIsListed(flows: Dict<Flow>, name: Option<string>)
    ensures FindFlow(flows, name).Some? ==> exists i :: 0 <= i < |flows| && flows[i].1 == FindFlow(flows, name).value
  {
    if FindFlow(flows, name).Some? { GetIsListed(flows, name.value); }
  }

  lemma {:induction false} GetIsListed<V>(d: Dict<V>, key: string)
    ensures Get(d, key).Some? ==> exists i :: 0 <= i < |d| && d[i].0 == key && d[i].1 == Get(d, key).value
  {
    if d != [] && d[0].0 != key {
      GetIsListed(d[1..], key);
      if Get(d, key).Some? {
        var i :| 0 <= i < |d[1..]| && d[1..][i].0 == key && d[1..][i].1 == Get(d, key).value;
        assert d[i + 1] == d[1..][i];
      }
    }
  }

  // --- a rejected answer -----------------------------------------------------------------

  /** The owner's words for a wrong answer; else what is wrong with the file; else the
      general ones. */
  function Explanation(w: Wording, step: Step, input: Input): string {
    if step.errorMessage.Some? && step.errorMessage.value != "" then step.errorMessage.value
    else if step.kind.FileStep? && NormalizeMedia(input.media).Some? then
      w.fileWrongKind + KindsPhrase(w, AcceptedKinds(step))
    else if step.kind.FileStep? then w.fileExpected
    else w.validationError
  }

  /** A rejected answer changes nothing and is explained. */
  lemma RejectionIsExplained(w: Wording, cfg: Settings, st: State, input: Input)
    requires Worded(w) && OpenStep(cfg, st).Some? && Considered(w, cfg, st, input)
    requires Judge(w, OpenStep(cfg, st).value, input).Rejected?
    ensures
      var t := Advance(w, cfg, st, input);
      var said := Strip(Explanation(w, OpenStep(cfg, st).value, input));
      && t.state == st && t.event.NoEvent?
      && t.replies == [if said == "" then w.menuHint else said + "\n\n" + w.menuHint]
  {
    hide Strip, MatchesMenuKeyword, MatchesHandoffKeyword, IsBlank, FindFlow, NormalizeMedia, KindsPhrase,
      AcceptedKinds, EmailShape, OnlyDigits, ParseNat, IsSkipWord, GreetingAndMenu, HandoffMessage, MenuList, PickFlow,
      QuestionText;
  }

  // --- the menu ---------------------------------------------------------------------------

  /** Every flow has a label to show, as validation demands. */
  ghost predicate AllLabelled(flows: Dict<Flow>) {
    forall i :: 0 <= i < |flows| ==> Strip(flows[i].1.labelText) != ""
  }

  ghost predicate ShowsMenu(flows: Dict<Flow>, reply: string) {
    forall i :: 0 <= i < |flows| ==> Contains(reply, Decimal(i + 1) + ". " + Strip(flows[i].1.labelText))
  }

  lemma {:induction false} MenuLinesAre(flows: Dict<Flow>, from: nat)
    requires from <= |flows| && AllLabelled(flows)
    ensures |MenuLines(flows, from)| == |flows| - from
    ensures forall i :: from <= i < |flows| ==>
      MenuLines(flows, from)[i - from] == Decimal(i + 1) + ". " + Strip(flows[i].1.labelText)
    decreases |flows| - from
  {
    hide Strip, Decimal;
    if from < |flows| {
      MenuLinesAre(flows, from + 1);
      assert MenuLines(flows, from) == [MenuLine(flows, from)] + MenuLines(flows, from + 1);
    }
  }

  lemma MenuListShows(flows: Dict<Flow>)
    requires AllLabelled(flows)
    ensures ShowsMenu(flows, MenuList(flows))
    ensures flows != [] ==> MenuList(flows) != "" && !IsSpace(MenuList(flows)[|MenuList(flows)| - 1])
    ensures flows == [] ==> MenuList(flows) == ""
  {
    hide Join, Contains, Decimal, Strip, MenuLines;
    MenuLinesAre(flows, 0);
    var lines := MenuLines(flows, 0);
    forall i | 0 <= i < |flows|
      ensures lines[i] == Decimal(i + 1) + ". " + Strip(flows[i].1.labelText)
      ensures lines[i] != "" && !IsSpace(lines[i][|lines[i]| - 1]) && Contains(Join(lines, "\n"), lines[i])
    {
      StripIsStripped(flows[i].1.labelText);
      JoinedIsInside(lines, "\n", i);
    }
    if flows != [] { JoinEnds(lines, "\n"); } else { assert lines == []; JoinOfNone(); }
  }

  lemma JoinOfNone()
    ensures Join([], "\n") == ""
  {
  }

  lemma GreetingShows(w: Wording, greeting: string, flows: Dict<Flow>)
    requires AllLabelled(flows)
    ensures
      var opening := if Strip(greeting) == "" then w.defaultGreeting else Strip(greeting);
      opening <= GreetingAndMenu(w, greeting, flows) && ShowsMenu(flows, GreetingAndMenu(w, greeting, flows))
  {
    hide Contains, Decimal, Strip, MenuList;
    MenuListShows(flows);
    var opening := if Strip(greeting) == "" then w.defaultGreeting else Strip(greeting);
    forall i | 0 <= i < |flows|
      ensures Contains(GreetingAndMenu(w, greeting, flows), Decimal(i + 1) + ". " + Strip(flows[i].1.labelText))
    {
      InsideOf(opening + "\n\n", MenuList(flows), "", Decimal(i + 1) + ". " + Strip(flows[i].1.labelText));
      assert opening + "\n\n" + MenuList(flows) + "" == opening + "\n\n" + MenuList(flows);
    }
  }

  lemma NudgeShows(w: Wording, flows: Dict<Flow>)
    requires AllLabelled(flows) && Worded(w)
    ensures
      var nudge := Strip(w.nudge + "\n\n" + MenuList(flows));
      ShowsMenu(flows, nudge) && (flows != [] ==> w.nudge <= nudge)
  {
    hide Contains, Decimal, Strip, MenuList;
    MenuListShows(flows);
    if flows != [] {
      var text := w.nudge + "\n\n" + MenuList(flows);
      StrippedIsFixed(text);
      forall i | 0 <= i < |flows|
        ensures Contains(text, Decimal(i + 1) + ". " + Strip(flows[i].1.labelText))
      {
        InsideOf(w.nudge + "\n\n", MenuList(flows), "", Decimal(i + 1) + ". " + Strip(flows[i].1.labelText));
        assert w.nudge + "\n\n" + MenuList(flows) + "" == text;
      }
    }
  }

  /** A turn that leads to the menu without an event shows the whole menu: under the
      owner's greeting after a first, blank or menu message, under the nudge after a
      message the menu could not place, under the default greeting when the open
      questionnaire is gone. */
  lemma MenuIsShown(w: Wording, cfg: Settings, st: State, input: Input)
    requires Worded(w) && AllLabelled(cfg.flows)
    ensures
      var t := Advance(w, cfg, st, input);
      var greeting := Strip(cfg.profile.greeting);
      t.state.phase.Menu? && t.event.NoEvent? ==>
        && |t.replies| == 1 && ShowsMenu(cfg.flows, t.replies[0])
        && (st.phase.New? || IsBlank(input) || !Considered(w, cfg, st, input) ==>
              (if greeting == "" then w.defaultGreeting else greeting) <= t.replies[0])
        && (Considered(w, cfg, st, input) && st.phase.InFlow? ==> w.defaultGreeting <= t.replies[0])
        && (Considered(w, cfg, st, input) && st.phase.Menu? && cfg.flows != [] ==> w.nudge <= t.replies[0])
  {
    hide Strip, MatchesMenuKeyword, MatchesHandoffKeyword, IsBlank, FindFlow, AnswersFileStep, ValidateAnswer, PickFlow,
      GreetingAndMenu, HandoffMessage, QuestionText, ErrorText, WithHint, NormalizeMedia, MenuList, ShowsMenu,
      AllLabelled;
    GreetingShows(w, cfg.profile.greeting, cfg.flows);
    GreetingShows(w, "", cfg.flows);
    assert Strip("") == "" by { StrippedIsFixed(""); }
    NudgeShows(w, cfg.flows);
  }

  // --- completion, handoff, booking ---------------------------------------------------------

  /** A completed questionnaire is closed with its flow's own words, or the default. */
  lemma CompletionIsTold(w: Wording, cfg: Settings, st: State, input: Input)
    requires Advance(w, cfg, st, input).event.LeadCompleted?
    ensures
      var flow := FindFlow(cfg.flows, st.activeFlow);
      && flow.Some?
      && var own := if flow.value.message.Some? then Strip(flow.value.message.value) else "";
         Advance(w, cfg, st, input).replies == [if own == "" then w.defaultCompletion else own]
  {
    hide Strip, MatchesMenuKeyword, MatchesHandoffKeyword, IsBlank, FindFlow, AnswersFileStep, ValidateAnswer, PickFlow,
      GreetingAndMenu, HandoffMessage, QuestionText, ErrorText, WithHint, NormalizeMedia, MenuList;
    assert Strip("") == "" by { StrippedIsFixed(""); }
  }

  /** The profile's words for a handoff, or the default. */
  function EscalationOf(w: Wording, cfg: Settings): string {
    if Strip(cfg.profile.escalationMessage) == "" then w.defaultEscalation else Strip(cfg.profile.escalationMessage)
  }

  function OwnWords(flow: Flow): string {
    if flow.message.Some? then Strip(flow.message.value) else ""
  }

  ghost predicate FirstHandoffFlow(flows: Dict<Flow>, i: nat) {
    i < |flows| && flows[i].1.flowType.HumanHandoff? && forall j :: 0 <= j < i ==> !flows[j].1.flowType.HumanHandoff?
  }

  lemma {:induction false} FirstHandoffTextIs(flows: Dict<Flow>, i: nat)
    requires FirstHandoffFlow(flows, i)
    ensures FirstHandoffText(flows) == OwnWords(flows[i].1)
  {
    hide Strip;
    assert Strip("") == "" by { StrippedIsFixed(""); }
    if i > 0 { FirstHandoffTextIs(flows[1..], i - 1); }
  }

  lemma {:induction false} NoHandoffText(flows: Dict<Flow>)
    requires forall i :: 0 <= i < |flows| ==> !flows[i].1.flowType.HumanHandoff?
    ensures FirstHandoffText(flows) == ""
  {
    if flows != [] { NoHandoffText(flows[1..]); }
  }

  /** A handoff by a picked flow is told in that flow's words; one by keyword in those
      of the first handoff flow; where there are none, in the profile's. */
  lemma HandoffIsTold(w: Wording, cfg: Settings, st: State, input: Input)
    requires Advance(w, cfg, st, input).event.HandoffRequested?
    ensures
      var t := Advance(w, cfg, st, input);
      var picked := PickFlow(Strip(input.message), cfg.flows);
      && (Considered(w, cfg, st, input) ==>
            picked.Some? &&
            t.replies == [if OwnWords(cfg.flows[picked.value].1) == "" then EscalationOf(w, cfg)
                          else OwnWords(cfg.flows[picked.value].1)])
      && (!Considered(w, cfg, st, input) ==>
            && (forall i: nat :: i < |cfg.flows| && FirstHandoffFlow(cfg.flows, i) ==>
                  t.replies == [if OwnWords(cfg.flows[i].1) == "" then EscalationOf(w, cfg)
                                else OwnWords(cfg.flows[i].1)])
            && ((forall i :: 0 <= i < |cfg.flows| ==> !cfg.flows[i].1.flowType.HumanHandoff?) ==>
                  t.replies == [EscalationOf(w, cfg)]))
  {
    hide Strip, MatchesMenuKeyword, MatchesHandoffKeyword, IsBlank, FindFlow, AnswersFileStep, ValidateAnswer, PickFlow,
      GreetingAndMenu, QuestionText, ErrorText, WithHint, NormalizeMedia, MenuList, FirstHandoffText, FirstHandoffFlow;
    assert Strip("") == "" by { StrippedIsFixed(""); }
    forall i: nat | i < |cfg.flows| && FirstHandoffFlow(cfg.flows, i)
      ensures FirstHandoffText(cfg.flows) == OwnWords(cfg.flows[i].1)
    {
      FirstHandoffTextIs(cfg.flows, i);
    }
    if forall i :: 0 <= i < |cfg.flows| ==> !cfg.flows[i].1.flowType.HumanHandoff? { NoHandoffText(cfg.flows); }
  }

  /** The booking text of the picked flow, or the default one. */
  function BookingText(w: Wording, flow: Flow): string {
    if OwnWords(flow) == "" then w.bookingPrompt else OwnWords(flow)
  }

  /** A booking is told in the picked flow's words with the link where its `{link}`
      stands, and unchanged where there is none. */
  lemma BookingIsTold(w: Wording, cfg: Settings, st: State, input: Input, a: string, b: string)
    requires Advance(w, cfg, st, input).event.BookingRequested?
    ensures
      var t := Advance(w, cfg, st, input);
      var picked := PickFlow(Strip(input.message), cfg.flows);
      && picked.Some?
      && var text := BookingText(w, cfg.flows[picked.value].1);
         && (text == a + "{link}" + b && '{' !in a && '{' !in b ==> t.replies == [a + w.demoLink + b])
         && ('{' !in text ==> t.replies == [text])
  {
    hide Strip, MatchesMenuKeyword, MatchesHandoffKeyword, IsBlank, FindFlow, AnswersFileStep, ValidateAnswer, PickFlow,
      GreetingAndMenu, HandoffMessage, QuestionText, ErrorText, WithHint, NormalizeMedia, MenuList, ReplaceAll;
    assert Strip("") == "" by { StrippedIsFixed(""); }
    var text := BookingText(w, cfg.flows[PickFlow(Strip(input.message), cfg.flows).value].1);
    if text == a + "{link}" + b && '{' !in a && '{' !in b {
      LinkIsPut(a, b, w.demoLink);
    }
    if '{' !in text {
      NoBrace(text);
      ReplacesNothing(text, LINK_PLACEHOLDER, w.demoLink);
    }
  }

  lemma NoBrace(s: string)
    requires '{' !in s
    ensures !Contains(s, "{link}")
  {
    forall i | 0 <= i <= |s| ensures !("{link}" <= s[i..]) {
      assert i < |s| ==> s[i..][0] == s[i];
    }
  }

  lemma LinkIsPut(a: string, b: string, link: string)
    requires '{' !in a && '{' !in b
    ensures ReplaceAll(a + "{link}" + b, "{link}", link) == a + link + b
  {
    hide ReplaceAll;
    forall i | 0 <= i < |a| ensures !("{link}" <= (a + "{link}" + b)[i..]) {
      assert (a + "{link}" + b)[i..][0] == a[i];
    }
    ReplacesLeftmost(a, b, "{link}", link);
    NoBrace(b);
    ReplacesNothing(b, "{link}", link);
  }

  // --- tables ---------------------------------------------------------------------------------

  /** Which files count as what. */
  lemma MimeTable()
    ensures MimeKind(Jpeg) == MimeKind(Png) == MimeKind(Webp) == Some(Image) && MimeKind(PdfMime) == Some(Pdf)
    ensures MimeKind(MsWord) == MimeKind(Docx) == Some(Doc) && MimeKind(MsPowerpoint) == MimeKind(Pptx) == Some(Ppt)
    ensures MimeKind(OtherMime).None?
    ensures forall name ::
      && (KindNamed(name) == Some(Image) <==> name == "image") && (KindNamed(name) == Some(Pdf) <==> name == "pdf")
      && (KindNamed(name) == Some(Doc) <==> name == "doc") && (KindNamed(name) == Some(Ppt) <==> name == "ppt")
  {
  }
}
