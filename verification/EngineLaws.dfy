/** What one turn of the engine guarantees, and what every reachable
    conversation state looks like. */
module EngineLaws {
  import opened Wrappers
  import opened BotModel
  import opened OrderedDict
  import opened Text
  import opened BotEngine

  // --- the shape of a turn -------------------------------------------------------

  /** Every turn answers once, never returns to the greeting phase, and its event
      says exactly which transition was taken. */
  lemma TurnShape(w: Wording, cfg: Settings, st: State, input: Input)
    ensures var t := Advance(w, cfg, st, input);
      && |t.replies| == 1
      && !t.state.phase.New?
      && (t.lead.Some? <==> t.event.LeadCompleted?)
      && (t.event.LeadCompleted? ==> st.phase.InFlow? && t.state == MENU_STATE)
      && (t.event.BookingRequested? ==> st.phase.Menu? && t.state == MENU_STATE)
      && (t.event.HandoffRequested? <==> t.state.phase.HandedOff? && !st.phase.HandedOff?)
      && (t.event.HandoffRequested? ==> t.state == State(HandedOff, None, 0, map[]))
      && (t.state.phase.Menu? ==> t.state == State(Menu, None, 0, map[]))
  {
  }

  /** A questionnaire is only entered from the menu, at its first step, and only
      left standing by a rejected answer or moved on by one step. */
  lemma InFlowShape(w: Wording, cfg: Settings, st: State, input: Input)
    requires Advance(w, cfg, st, input).state.phase.InFlow?
    ensures var t := Advance(w, cfg, st, input);
      && t.event.NoEvent?
      && (st.phase.InFlow? ==>
           && t.state.activeFlow == st.activeFlow
           && (t.state == st || t.state.stepIndex == st.stepIndex + 1))
      && (!st.phase.InFlow? ==>
           st.phase.Menu? && t.state.activeFlow.Some? && t.state == StartOf(t.state.activeFlow.value))
  {
  }

  /** A paused chat answers nothing and stays paused exactly while messages are
      not blank: a blank message reopens the menu even after a handoff. */
  lemma PausedChat(w: Wording, cfg: Settings, st: State, input: Input)
    requires st.phase.HandedOff?
    ensures var t := Advance(w, cfg, st, input);
      && t.event.NoEvent?
      && (t.state == st <==> !IsBlank(input))
      && (IsBlank(input) ==> t.state == MENU_STATE)
      && (!IsBlank(input) ==> t.replies == [w.handedOffNote])
  {
  }

  /** The blank turn goes to the menu from every phase, so an optional file step
      is never skipped by sending nothing: the answers so far are dropped. */
  lemma BlankTurnDropsAnswers(w: Wording, cfg: Settings, st: State, input: Input)
    requires IsBlank(input)
    ensures Advance(w, cfg, st, input).state == MENU_STATE
    ensures Advance(w, cfg, st, input).event.NoEvent?
  {
  }

  // --- answers fit their step ------------------------------------------------------

  /** An attachment reference as the engine stores it: a trimmed id, and a trimmed
      name cut to 200 characters. */
  ghost predicate NormalFile(file: FileRef) {
    && file.fileId != "" && Stripped(file.fileId)
    && |file.name| <= 200
    && (file.name == "" || !IsSpace(file.name[0]))
    && (|file.name| < 200 ==> Stripped(file.name))
  }

  /** What a stored answer of a step may be, whatever the customer sent. */
  ghost predicate Fits(step: Step, answer: Answer) {
    match step.kind
    case FileStep =>
      (match answer
       case Attachment(file) =>
         NormalFile(file) && MimeKind(file.mime).Some? && MimeKind(file.mime).value in AcceptedKinds(step)
       case Skipped => !step.required
       case Words(_) => false)
    case PhoneStep => answer.Words? && |answer.text| >= 9 && AllDigits(answer.text)
    case EmailStep => answer.Words? && EmailShape(answer.text)
    case ChoiceStep => answer.Words? && answer.text in step.options
    case _ => answer.Words? && Stripped(answer.text) && (step.required ==> answer.text != "")
  }

  /** The step's verdict on an input, as the engine asks for it. */
  function Judge(w: Wording, step: Step, input: Input): Verdict {
    ValidateAnswer(w, step, Strip(input.message), NormalizeMedia(input.media))
  }

  lemma AcceptedFits(w: Wording, step: Step, input: Input)
    requires Judge(w, step, input).Accepted?
    ensures Fits(step, Judge(w, step, input).answer)
  {
    hide Strip, OnlyDigits, NormalizeMedia, NormalFile;
    StripIsStripped(input.message);
    OnlyDigitsAreDigits(Strip(Strip(input.message)));
    NormalizedIsNormal(input.media);
  }

  lemma NormalizedIsNormal(media: Option<FileRef>)
    ensures NormalizeMedia(media).Some? ==> NormalFile(NormalizeMedia(media).value)
  {
    hide Strip;
    if media.Some? {
      StripIsStripped(media.value.fileId);
      StripIsStripped(media.value.name);
    }
  }

  // --- exactly when ---------------------------------------------------------------

  /** The message is looked at as an answer or a choice: it is not blank, not a
      reply to the greeting, and no keyword takes it. */
  predicate Considered(w: Wording, cfg: Settings, st: State, input: Input) {
    && !st.phase.New? && !st.phase.HandedOff? && !IsBlank(input)
    && (AnswersFileStep(cfg, st, input)
        || (!MatchesMenuKeyword(w, cfg, Strip(input.message)) && !MatchesHandoffKeyword(cfg, Strip(input.message))))
  }

  predicate Picks(cfg: Settings, st: State, input: Input, kind: FlowType) {
    var picked := PickFlow(Strip(input.message), cfg.flows);
    st.phase.Menu? && picked.Some? && cfg.flows[picked.value].1.flowType == kind
  }

  /** The step the conversation stands on. */
  function OpenStep(cfg: Settings, st: State): Option<Step> {
    var flow := if st.phase.InFlow? then FindFlow(cfg.flows, st.activeFlow) else None;
    if flow.None? || st.stepIndex >= |flow.value.steps| then None else Some(flow.value.steps[st.stepIndex])
  }

  /** A questionnaire is completed exactly by an accepted answer to the last step,
      and the lead is everything collected with that answer. */
  lemma CompletesExactlyWhen(w: Wording, cfg: Settings, st: State, input: Input)
    ensures
      var t := Advance(w, cfg, st, input);
      var step := OpenStep(cfg, st);
      && (t.event.LeadCompleted? <==>
           && Considered(w, cfg, st, input) && step.Some?
           && st.stepIndex + 1 == |FindFlow(cfg.flows, st.activeFlow).value.steps|
           && Judge(w, step.value, input).Accepted?)
      && (t.event.LeadCompleted? ==>
           t.lead == Some(st.collected[step.value.key := Judge(w, step.value, input).answer]))
  {
    hide ValidateAnswer, MatchesMenuKeyword, MatchesHandoffKeyword, FindFlow, IsBlank, AnswersFileStep, Strip,
      PickFlow, GreetingAndMenu, HandoffMessage, QuestionText, ErrorText, WithHint, NormalizeMedia;
  }

  /** A human is asked for exactly by a handoff keyword, which a menu keyword or
      an attachment a file step waits for overrules, or by picking a handoff flow. */
  lemma HandsOffExactlyWhen(w: Wording, cfg: Settings, st: State, input: Input)
    ensures
      var text := Strip(input.message);
      Advance(w, cfg, st, input).event.HandoffRequested? <==>
        || (!st.phase.New? && !st.phase.HandedOff? && !IsBlank(input) && !AnswersFileStep(cfg, st, input)
            && !MatchesMenuKeyword(w, cfg, text) && MatchesHandoffKeyword(cfg, text))
        || (Considered(w, cfg, st, input) && Picks(cfg, st, input, HumanHandoff))
  {
    hide ValidateAnswer, MatchesMenuKeyword, MatchesHandoffKeyword, FindFlow, IsBlank, AnswersFileStep, Strip,
      PickFlow, GreetingAndMenu, HandoffMessage, QuestionText, ErrorText, WithHint, NormalizeMedia;
  }

  /** Booking is asked for exactly by picking a booking flow from the menu. */
  lemma BooksExactlyWhen(w: Wording, cfg: Settings, st: State, input: Input)
    ensures Advance(w, cfg, st, input).event.BookingRequested? <==>
      Considered(w, cfg, st, input) && Picks(cfg, st, input, Booking)
  {
    hide ValidateAnswer, MatchesMenuKeyword, MatchesHandoffKeyword, FindFlow, IsBlank, AnswersFileStep, Strip,
      PickFlow, GreetingAndMenu, HandoffMessage, QuestionText, ErrorText, WithHint, NormalizeMedia;
  }

  /** Leaving a questionnaire unfinished: exactly a blank message, a menu keyword,
      or a configuration that no longer has the open step. */
  lemma AbandonsExactlyWhen(w: Wording, cfg: Settings, st: State, input: Input)
    requires st.phase.InFlow?
    ensures
      var t := Advance(w, cfg, st, input);
      t.state.phase.Menu? && t.event.NoEvent? <==>
        || IsBlank(input)
        || (!AnswersFileStep(cfg, st, input) && MatchesMenuKeyword(w, cfg, Strip(input.message)))
        || (Considered(w, cfg, st, input) && OpenStep(cfg, st).None?)
  {
    hide ValidateAnswer, MatchesMenuKeyword, MatchesHandoffKeyword, FindFlow, IsBlank, AnswersFileStep, Strip,
      PickFlow, GreetingAndMenu, HandoffMessage, QuestionText, ErrorText, WithHint, NormalizeMedia;
  }

  /** A typed label picks the first flow whose label contains it or is contained
      in it, ignoring case. */
  lemma {:induction false} LabelPicksFirstMatch(low: string, flows: Dict<Flow>, from: nat, i: nat)
    requires from <= |flows|
    ensures MatchLabel(low, flows, from) == Some(i) <==>
      from <= i < |flows| && LabelMatches(low, flows[i].1) && forall j :: from <= j < i ==>
        !LabelMatches(low, flows[j].1)
    decreases |flows| - from
  {
    if from < |flows| { LabelPicksFirstMatch(low, flows, from + 1, i); }
  }

  predicate LabelMatches(low: string, flow: Flow) {
    var shown := Lower(Strip(flow.labelText));
    shown != "" && (Contains(low, shown) || Contains(shown, low))
  }

  // --- reachable states ---------------------------------------------------------------

  /** `collected` holds a fitting answer for each of `steps` and nothing else. */
  ghost predicate Answered(steps: seq<Step>, collected: map<string, Answer>) {
    && (forall i :: 0 <= i < |steps| ==> steps[i].key in collected && Fits(steps[i], collected[steps[i].key]))
    && (forall key :: key in collected ==> exists i :: 0 <= i < |steps| && steps[i].key == key)
  }

  ghost predicate StandsIn(entry: (string, Flow), st: State) {
    && st.activeFlow == Some(entry.0)
    && entry.1.flowType.Lead?
    && st.stepIndex < |entry.1.steps|
    && Answered(entry.1.steps[..st.stepIndex], st.collected)
  }

  /** In a questionnaire: the flow exists, the step exists, and exactly the
      earlier steps are answered. */
  ghost predicate Consistent(cfg: Settings, st: State) {
    st.phase.InFlow? ==> exists k :: 0 <= k < |cfg.flows| && StandsIn(cfg.flows[k], st)
  }

  /** A completed lead answers every step of some lead flow, and nothing else. */
  ghost predicate IsCompleteLead(cfg: Settings, lead: map<string, Answer>) {
    exists k :: 0 <= k < |cfg.flows| && cfg.flows[k].1.flowType.Lead? && Answered(cfg.flows[k].1.steps, lead)
  }

  lemma OneMoreAnswer(steps: seq<Step>, i: nat, collected: map<string, Answer>, answer: Answer)
    requires i < |steps| && UniqueStepKeys(steps)
    requires Answered(steps[..i], collected) && Fits(steps[i], answer)
    ensures Answered(steps[..i + 1], collected[steps[i].key := answer])
  {
    var now := collected[steps[i].key := answer];
    forall j | 0 <= j < i + 1
      ensures steps[j].key in now && Fits(steps[j], now[steps[j].key])
    {
      if j < i { assert steps[..i][j].key in collected; }
    }
    var done := steps[..i + 1];
    forall key | key in now
      ensures exists j :: 0 <= j < |done| && done[j].key == key
    {
      if key == steps[i].key {
        assert done[i].key == key;
      } else {
        var j :| 0 <= j < i && steps[..i][j].key == key;
        assert done[j].key == key;
      }
    }
  }

  /** One turn keeps a state consistent and only ever completes complete leads. */
  lemma TurnKeepsConsistent(w: Wording, cfg: Settings, st: State, input: Input)
    requires WellFormed(cfg) && Consistent(cfg, st)
    ensures var t := Advance(w, cfg, st, input);
      Consistent(cfg, t.state) && (t.lead.Some? ==> IsCompleteLead(cfg, t.lead.value))
  {
    hide GreetingAndMenu, HandoffMessage, QuestionText, ErrorText, WithHint, MatchesMenuKeyword, MatchesHandoffKeyword,
      ValidateAnswer, Strip, NormalizeMedia, PickFlow, AnswersFileStep, MenuList;
    var t := Advance(w, cfg, st, input);
    if st.phase.InFlow? && (t.lead.Some? || (t.state.phase.InFlow? && t.state != st)) {
      var k :| 0 <= k < |cfg.flows| && StandsIn(cfg.flows[k], st);
      GetAt(cfg.flows, k);
      var (text, media) := (Strip(input.message), NormalizeMedia(input.media));
      var (steps, i) := (cfg.flows[k].1.steps, st.stepIndex);
      var verdict := ValidateAnswer(w, steps[i], text, media);
      assert t == AdvanceInFlow(w, cfg, st, text, media) && verdict.Accepted?;
      AcceptedFits(w, steps[i], input);
      OneMoreAnswer(steps, i, st.collected, verdict.answer);
      if t.lead.Some? {
        assert steps[..i + 1] == steps;
      } else {
        assert StandsIn(cfg.flows[k], t.state);
      }
    } else if t.state.phase.InFlow? && t.state != st {
      var k := PickFlow(Strip(input.message), cfg.flows).value;
      assert StandsIn(cfg.flows[k], t.state);
    }
  }

  /** The state after a whole conversation. */
  function Converse(w: Wording, cfg: Settings, st: State, inputs: seq<Input>): State {
    if inputs == [] then st
    else Advance(w, cfg, Converse(w, cfg, st, inputs[..|inputs| - 1]), inputs[|inputs| - 1]).state
  }

  lemma {:induction false} ReachableIsConsistent(w: Wording, cfg: Settings, inputs: seq<Input>)
    requires WellFormed(cfg)
    ensures Consistent(cfg, Converse(w, cfg, INITIAL_STATE, inputs))
  {
    if inputs != [] {
      ReachableIsConsistent(w, cfg, inputs[..|inputs| - 1]);
      TurnKeepsConsistent(w, cfg, Converse(w, cfg, INITIAL_STATE, inputs[..|inputs| - 1]), inputs[|inputs| - 1]);
    }
  }

  // --- printed menus parse back ---------------------------------------------------------

  /** The digits a line starts with. */
  function LeadingDigits(line: string): string {
    if line == "" || !IsDigit(line[0]) then "" else [line[0]] + LeadingDigits(line[1..])
  }

  lemma {:induction false} LeadingDigitsOf(digits: string, rest: string)
    requires forall i :: 0 <= i < |digits| ==> IsDigit(digits[i])
    requires rest != "" && !IsDigit(rest[0])
    ensures LeadingDigits(digits + rest) == digits
  {
    if digits == "" {
      assert digits + rest == rest;
    } else {
      LeadingDigitsOf(digits[1..], rest);
      assert (digits + rest)[1..] == digits[1..] + rest;
    }
  }

  lemma NumeralHeadsLine(n: nat, rest: string)
    ensures AllDigits(Decimal(n)) && ParseNat(Decimal(n)) == n && Strip(Decimal(n)) == Decimal(n)
    ensures LeadingDigits(Decimal(n) + ". " + rest) == Decimal(n)
  {
    ParseDecimal(n);
    DigitsAreStripped(Decimal(n));
    TrimmedIsFixed(Decimal(n), SPACES);
    LeadingDigitsOf(Decimal(n), ". " + rest);
    assert Decimal(n) + ". " + rest == Decimal(n) + (". " + rest);
  }

  lemma {:induction false} MenuLinesAt(flows: Dict<Flow>, from: nat, i: nat)
    requires from <= i < |flows|
    ensures |MenuLines(flows, from)| == |flows| - from
    ensures MenuLines(flows, from)[i - from] == MenuLine(flows, i)
    decreases |flows| - from
  {
    if from < i {
      MenuLinesAt(flows, from + 1, i);
    } else if from + 1 < |flows| {
      MenuLinesAt(flows, from + 1, from + 1);
    }
  }

  lemma {:induction false} OptionLinesAt(options: seq<string>, from: nat, i: nat)
    requires from <= i < |options|
    ensures |OptionLines(options, from)| == |options| - from
    ensures OptionLines(options, from)[i - from] == OptionLine(options, i)
    decreases |options| - from
  {
    if from < i {
      OptionLinesAt(options, from + 1, i);
    } else if from + 1 < |options| {
      OptionLinesAt(options, from + 1, from + 1);
    }
  }

  /** Typing the number at the head of the i-th printed menu line picks the i-th
      flow, and no other number does. */
  lemma PrintedNumberPicksItsFlow(flows: Dict<Flow>, i: nat, n: nat)
    requires i < |flows|
    ensures |MenuLines(flows, 0)| == |flows|
    ensures PickFlow(LeadingDigits(MenuLines(flows, 0)[i]), flows) == Some(i)
    ensures PickFlow(Decimal(n), flows) == Some(i) <==> n == i + 1
  {
    hide PickFlow, Decimal, LeadingDigits, Strip, ParseNat, MenuLines, MatchLabel;
    MenuLinesAt(flows, 0, i);
    NumeralHeadsLine(n, "");
    NumberedFlow(flows, Decimal(n));
    var shown := Strip(flows[i].1.labelText);
    NumeralHeadsLine(i + 1, if shown == "" then flows[i].0 else shown);
    NumberedFlow(flows, Decimal(i + 1));
  }

  lemma NumberedFlow(flows: Dict<Flow>, digits: string)
    requires AllDigits(digits) && Strip(digits) == digits
    ensures PickFlow(digits, flows) ==
      if 1 <= ParseNat(digits) <= |flows| then Some(ParseNat(digits) - 1) else None
  {
    hide Strip, ParseNat, MatchLabel;
  }

  /** Typing the number at the head of the i-th printed option line answers with
      the i-th option. */
  lemma PrintedNumberPicksItsOption(w: Wording, step: Step, i: nat)
    requires step.kind.ChoiceStep? && i < |step.options|
    ensures |OptionLines(step.options, 0)| == |step.options|
    ensures ValidateAnswer(w, step, LeadingDigits(OptionLines(step.options, 0)[i]), None) ==
      Accepted(Words(step.options[i]))
  {
    hide ValidateAnswer, Decimal, LeadingDigits, Strip, ParseNat, OptionLines;
    OptionLinesAt(step.options, 0, i);
    NumeralHeadsLine(i + 1, step.options[i]);
    NumberedOption(w, step, Decimal(i + 1));
  }

  lemma NumberedOption(w: Wording, step: Step, digits: string)
    requires step.kind.ChoiceStep? && AllDigits(digits) && Strip(digits) == digits
    requires 1 <= ParseNat(digits) <= |step.options|
    ensures ValidateAnswer(w, step, digits, None) == Accepted(Words(step.options[ParseNat(digits) - 1]))
  {
  }

  /** Typing an option's own text answers with it, unless the text is a number:
      a digits-only option is read as a position. */
  lemma TypedOptionIsItself(w: Wording, step: Step, i: nat)
    requires step.kind.ChoiceStep? && i < |step.options| && Stripped(step.options[i])
    ensures var option := step.options[i];
      ValidateAnswer(w, step, option, None) == Accepted(Words(option))
      <==> (AllDigits(option) ==>
             1 <= ParseNat(option) <= |step.options| && step.options[ParseNat(option) - 1] == option)
  {
    TrimmedIsFixed(step.options[i], SPACES);
  }

  /** A choice among "2" and "1": typing either answers with the other. */
  lemma DigitOptionsSwap(w: Wording, step: Step)
    requires step.kind.ChoiceStep? && step.options == ["2", "1"]
    ensures ValidateAnswer(w, step, "2", None) == Accepted(Words("1"))
    ensures ValidateAnswer(w, step, "1", None) == Accepted(Words("2"))
  {
    assert Stripped("2") && Stripped("1");
    assert AllDigits("2") && AllDigits("1");
    assert ParseNat("2") == 2 && ParseNat("1") == 1;
  }

  // --- untrusted states -------------------------------------------------------------------

  /** A state the engine wrote is read back unchanged; of any other object each
      ill-typed field, and a negative index, takes its default, and what is no
      object is a new conversation. */
  lemma NormalizedState(raw: RawState, st: State)
    ensures raw == RawState(Some(st.phase), st.activeFlow, Some(st.stepIndex), Some(st.collected)) ==>
      NormalizeState(raw) == st
    ensures raw.NotAnObject? ==> NormalizeState(raw) == State(New, None, 0, map[])
    ensures raw.RawState? ==>
      var read := NormalizeState(raw);
      && (raw.phase == Some(read.phase) || (raw.phase.None? && read.phase.Menu?))
      && read.activeFlow == raw.activeFlow
      && (raw.stepIndex == Some(read.stepIndex) ||
          ((raw.stepIndex.None? || raw.stepIndex.value < 0) && read.stepIndex == 0))
      && (raw.collected == Some(read.collected) || (raw.collected.None? && read.collected == map[]))
  {
  }

  /** Whatever state a client sends, after one turn the engine is at the clean
      menu, handed off, or on a step that exists; only a handed-off state can keep
      what the client put in it. */
  lemma UntrustedStateIsTamed(w: Wording, cfg: Settings, raw: RawState, input: Input)
    requires WellFormed(cfg)
    ensures
      var st := NormalizeState(raw);
      var next := Advance(w, cfg, st, input).state;
      && !next.phase.New?
      && (next.phase.InFlow? ==> OpenStep(cfg, next).Some?)
      && (next.phase.Menu? ==> next == MENU_STATE)
      && (next.phase.HandedOff? ==> next == HANDED_OFF_STATE || next == st)
  {
    hide ValidateAnswer, MatchesMenuKeyword, MatchesHandoffKeyword, IsBlank, AnswersFileStep, Strip,
      GreetingAndMenu, HandoffMessage, QuestionText, ErrorText, WithHint, NormalizeMedia, MenuList, PickFlow;
    var st := NormalizeState(raw);
    var next := Advance(w, cfg, st, input).state;
    if next.phase.InFlow? && !st.phase.InFlow? {
      var k := PickFlow(Strip(input.message), cfg.flows).value;
      GetAt(cfg.flows, k);
    }
  }
}
