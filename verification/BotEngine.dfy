/** The conversation engine: one inbound message and the current conversation
    state give the bot's replies, the next state and at most one event
    (backend/app/services/bot_engine.py). */
module BotEngine {
  import opened Wrappers
  import opened BotModel
  import opened OrderedDict
  import opened Text

  const MIN_PHONE_DIGITS: nat := 9
  const MAX_NAME_CHARS: nat := 200
  const LINK_PLACEHOLDER := "{link}"

  /** The fixed customer-facing texts. They are a parameter: nothing below
      depends on their words. */
  datatype Wording = Wording(
    defaultMenuKeywords: seq<string>,
    defaultGreeting: string,
    defaultEscalation: string,
    handedOffNote: string,
    validationError: string,
    defaultCompletion: string,
    nudge: string,
    bookingPrompt: string,
    demoLink: string,
    menuHint: string,
    fileExpected: string,
    fileWrongKind: string,
    attachHint: string,
    skipHint: string,
    skipWords: seq<string>,
    imageLabel: string,
    pdfLabel: string,
    docLabel: string,
    pptLabel: string,
    fileLabel: string,
    orWord: string)

  datatype Phase = New | Menu | InFlow | HandedOff

  /** The stored answer of one step; `Skipped` is an optional file step left empty. */
  datatype Answer = Words(text: string) | Attachment(file: FileRef) | Skipped

  datatype State = State(
    phase: Phase,
    activeFlow: Option<string>,
    stepIndex: nat,
    collected: map<string, Answer>)

  datatype Event = NoEvent | LeadCompleted | HandoffRequested | BookingRequested

  datatype Turn = Turn(
    replies: seq<string>,
    state: State,
    event: Event,
    lead: Option<map<string, Answer>>)

  datatype Input = Input(message: string, media: Option<FileRef>)

  const INITIAL_STATE := State(New, None, 0, map[])
  const MENU_STATE := State(Menu, None, 0, map[])
  const HANDED_OFF_STATE := State(HandedOff, None, 0, map[])

  // --- one turn ---------------------------------------------------------------

  function Advance(w: Wording, cfg: Settings, st: State, input: Input): Turn {
    var text := Strip(input.message);
    var media := NormalizeMedia(input.media);
    if st.phase.New? || IsBlank(input) then
      Turn([GreetingAndMenu(w, cfg.profile.greeting, cfg.flows)], MENU_STATE, NoEvent, None)
    else if st.phase.HandedOff? then
      Turn([w.handedOffNote], st, NoEvent, None)
    else if !AnswersFileStep(cfg, st, input) && MatchesMenuKeyword(w, cfg, text) then
      Turn([GreetingAndMenu(w, cfg.profile.greeting, cfg.flows)], MENU_STATE, NoEvent, None)
    else if !AnswersFileStep(cfg, st, input) && MatchesHandoffKeyword(cfg, text) then
      Turn([HandoffMessage(w, cfg)], HANDED_OFF_STATE, HandoffRequested, None)
    else if st.phase.InFlow? then
      AdvanceInFlow(w, cfg, st, text, media)
    else
      AdvanceMenu(w, cfg, text)
  }

  /** Neither text nor a usable attachment. */
  predicate IsBlank(input: Input) {
    Strip(input.message) == "" && NormalizeMedia(input.media).None?
  }

  /** An attachment that lands exactly on a file step is the answer, whatever
      its caption says. */
  predicate AnswersFileStep(cfg: Settings, st: State, input: Input) {
    NormalizeMedia(input.media).Some? && CurrentStepType(cfg, st) == Some(FileStep)
  }

  function AdvanceInFlow(w: Wording, cfg: Settings, st: State, text: string, media: Option<FileRef>): Turn {
    match FindFlow(cfg.flows, st.activeFlow)
    case None => Turn([GreetingAndMenu(w, "", cfg.flows)], MENU_STATE, NoEvent, None)
    case Some(flow) =>
      if st.stepIndex >= |flow.steps| then
        Turn([GreetingAndMenu(w, "", cfg.flows)], MENU_STATE, NoEvent, None)
      else
        var step := flow.steps[st.stepIndex];
        match ValidateAnswer(w, step, text, media)
        case Rejected(reason) =>
          Turn([WithHint(w, ErrorText(w, step, reason))], st, NoEvent, None)
        case Accepted(answer) =>
          var collected := st.collected[step.key := answer];
          if st.stepIndex + 1 >= |flow.steps| then
            Turn([CompletionMessage(w, flow)], MENU_STATE, LeadCompleted, Some(collected))
          else
            Turn([WithHint(w, QuestionText(w, flow.steps[st.stepIndex + 1]))],
                 State(InFlow, st.activeFlow, st.stepIndex + 1, collected), NoEvent, None)
  }

  function AdvanceMenu(w: Wording, cfg: Settings, text: string): Turn {
    var nudge := Turn([Strip(w.nudge + "\n\n" + MenuList(cfg.flows))], MENU_STATE, NoEvent, None);
    match PickFlow(text, cfg.flows)
    case None => nudge
    case Some(i) =>
      var (name, flow) := cfg.flows[i];
      match flow.flowType
      case Lead =>
        if flow.steps == [] then nudge
        else Turn([WithHint(w, QuestionText(w, flow.steps[0]))], StartOf(name), NoEvent, None)
      case HumanHandoff =>
        Turn([HandoffMessageForFlow(w, flow, cfg.profile)], HANDED_OFF_STATE, HandoffRequested, None)
      case Booking =>
        var own := Strip(flow.message.GetOr(""));
        var msg := ReplaceAll(if own == "" then w.bookingPrompt else own, LINK_PLACEHOLDER, w.demoLink);
        Turn([msg], MENU_STATE, BookingRequested, None)
      case OtherFlow => nudge
  }

  /** The state right after a questionnaire was picked. */
  function StartOf(name: string): State { State(InFlow, Some(name), 0, map[]) }

  // --- validating one answer ----------------------------------------------------

  datatype Verdict = Accepted(answer: Answer) | Rejected(reason: Option<string>)

  function ValidateAnswer(w: Wording, step: Step, text: string, media: Option<FileRef>): Verdict {
    var value := Strip(text);
    match step.kind
    case FileStep =>
      (match media
       case Some(file) =>
         var kind := MimeKind(file.mime);
         if kind.None? || kind.value !in AcceptedKinds(step) then
           Rejected(Some(w.fileWrongKind + KindsPhrase(w, AcceptedKinds(step))))
         else Accepted(Attachment(file))
       case None =>
         if !step.required && (value == "" || IsSkipWord(w, value)) then Accepted(Skipped)
         else Rejected(Some(w.fileExpected)))
    case PhoneStep =>
      var digits := OnlyDigits(value);
      if |digits| < MIN_PHONE_DIGITS then Rejected(None) else Accepted(Words(digits))
    case EmailStep =>
      if EmailShape(value) then Accepted(Words(value)) else Rejected(None)
    case ChoiceStep =>
      if AllDigits(value) then
        var n := ParseNat(value);
        if 1 <= n <= |step.options| then Accepted(Words(step.options[n - 1])) else Rejected(None)
      else if value in step.options then Accepted(Words(value))
      else Rejected(None)
    case _ =>
      if step.required && value == "" then Rejected(None) else Accepted(Words(value))
  }

  /** One `@` with text before it, and after it a `.` with text on both sides;
      no white space anywhere. */
  predicate EmailShape(s: string) {
    exists at, dot | 0 < at < |s| && at + 1 < dot < |s| - 1 ::
      s[at] == '@' && s[dot] == '.' &&
      forall k | 0 <= k < |s| && k != at :: s[k] != '@' && !IsSpace(s[k])
  }

  function MimeKind(mime: Mime): Option<Kind> {
    match mime
    case Jpeg => Some(Image)
    case Png => Some(Image)
    case Webp => Some(Image)
    case PdfMime => Some(Pdf)
    case MsWord => Some(Doc)
    case Docx => Some(Doc)
    case MsPowerpoint => Some(Ppt)
    case Pptx => Some(Ppt)
    case OtherMime => None
  }

  function KnownKinds(names: seq<string>): seq<Kind> {
    if names == [] then []
    else
      match KindNamed(names[0])
      case Some(kind) => [kind] + KnownKinds(names[1..])
      case None => KnownKinds(names[1..])
  }

  /** The known kinds on the accept list; none of them means every kind. */
  function AcceptedKinds(step: Step): seq<Kind> {
    var kinds := KnownKinds(step.accept);
    if kinds == [] then [Image, Pdf, Doc, Ppt] else kinds
  }

  predicate IsSkipWord(w: Wording, text: string) {
    exists i | 0 <= i < |w.skipWords| :: Lower(text) == Lower(w.skipWords[i])
  }

  /** Keep an attachment reference only when it names a file. */
  function NormalizeMedia(media: Option<FileRef>): Option<FileRef> {
    match media
    case None => None
    case Some(file) =>
      if Strip(file.fileId) == "" then None
      else
        var name := Strip(file.name);
        Some(FileRef(Strip(file.fileId), file.mime, if |name| > MAX_NAME_CHARS then name[..MAX_NAME_CHARS] else name))
  }

  function CurrentStepType(cfg: Settings, st: State): Option<StepType> {
    if !st.phase.InFlow? then None else
      match FindFlow(cfg.flows, st.activeFlow)
      case None => None
      case Some(flow) => if st.stepIndex >= |flow.steps| then None else Some(flow.steps[st.stepIndex].kind)
  }

  // --- finding flows -------------------------------------------------------------

  /** An empty name never names a flow. */
  function FindFlow(flows: Dict<Flow>, name: Option<string>): Option<Flow> {
    if name.None? || name.value == "" then None else Get(flows, name.value)
  }

  /** The picked flow's position: by 1-based number, else by label. */
  function PickFlow(text: string, flows: Dict<Flow>): (r: Option<nat>)
    ensures r.Some? ==> r.value < |flows|
  {
    var value := Strip(text);
    if value == "" then None
    else if AllDigits(value) then
      var n := ParseNat(value);
      if 1 <= n <= |flows| then Some(n - 1) else None
    else MatchLabel(Lower(value), flows, 0)
  }

  function MatchLabel(low: string, flows: Dict<Flow>, i: nat): (r: Option<nat>)
    requires i <= |flows|
    ensures r.Some? ==> r.value < |flows|
    decreases |flows| - i
  {
    if i == |flows| then None
    else
      var shown := Lower(Strip(flows[i].1.labelText));
      if shown != "" && (Contains(low, shown) || Contains(shown, low)) then Some(i)
      else MatchLabel(low, flows, i + 1)
  }

  function MenuKeywords(w: Wording, cfg: Settings): seq<string> {
    if cfg.profile.menuKeywords == [] then w.defaultMenuKeywords else cfg.profile.menuKeywords
  }

  predicate MatchesMenuKeyword(w: Wording, cfg: Settings, text: string) {
    exists i | 0 <= i < |MenuKeywords(w, cfg)| ::
      Lower(Strip(MenuKeywords(w, cfg)[i])) != "" && Lower(Strip(text)) == Lower(Strip(MenuKeywords(w, cfg)[i]))
  }

  predicate MatchesHandoffKeyword(cfg: Settings, text: string) {
    exists i | 0 <= i < |cfg.handoffKeywords| ::
      Lower(Strip(cfg.handoffKeywords[i])) != "" && Contains(Lower(text), Lower(Strip(cfg.handoffKeywords[i])))
  }

  // --- texts ------------------------------------------------------------------------

  function GreetingAndMenu(w: Wording, greeting: string, flows: Dict<Flow>): string {
    var opening := if Strip(greeting) == "" then w.defaultGreeting else Strip(greeting);
    var menu := MenuList(flows);
    if menu == "" then opening else opening + "\n\n" + menu
  }

  /** The i-th line of a printed menu, counting from zero. */
  function MenuLine(flows: Dict<Flow>, i: nat): string
    requires i < |flows|
  {
    var shown := Strip(flows[i].1.labelText);
    Decimal(i + 1) + ". " + (if shown == "" then flows[i].0 else shown)
  }

  /** The menu lines from position i on. */
  function MenuLines(flows: Dict<Flow>, i: nat): seq<string>
    requires i <= |flows|
    decreases |flows| - i
  {
    if i == |flows| then [] else [MenuLine(flows, i)] + MenuLines(flows, i + 1)
  }

  function MenuList(flows: Dict<Flow>): string {
    Join(MenuLines(flows, 0), "\n")
  }

  function OptionLine(options: seq<string>, i: nat): string
    requires i < |options|
  {
    Decimal(i + 1) + ". " + options[i]
  }

  function OptionLines(options: seq<string>, i: nat): seq<string>
    requires i <= |options|
    decreases |options| - i
  {
    if i == |options| then [] else [OptionLine(options, i)] + OptionLines(options, i + 1)
  }

  function QuestionText(w: Wording, step: Step): string {
    var question := Strip(step.question);
    match step.kind
    case FileStep =>
      var hint := w.attachHint + KindsPhrase(w, AcceptedKinds(step)) + (if step.required then "" else w.skipHint);
      if question == "" then hint else question + "\n" + hint
    case ChoiceStep =>
      if step.options == [] then question
      else
        var opts := Join(OptionLines(step.options, 0), "\n");
        if question == "" then opts else question + "\n" + opts
    case _ => question
  }

  function WithHint(w: Wording, text: string): string {
    if Strip(text) == "" then w.menuHint else Strip(text) + "\n\n" + w.menuHint
  }

  /** The owner's own wording wins, then the step's reason, then the default. */
  function ErrorText(w: Wording, step: Step, reason: Option<string>): string {
    if step.errorMessage.GetOr("") != "" then step.errorMessage.GetOr("")
    else if reason.GetOr("") != "" then reason.GetOr("")
    else w.validationError
  }

  function CompletionMessage(w: Wording, flow: Flow): string {
    var own := Strip(flow.message.GetOr(""));
    if own == "" then w.defaultCompletion else own
  }

  function Escalation(w: Wording, profile: Profile): string {
    var own := Strip(profile.escalationMessage);
    if own == "" then w.defaultEscalation else own
  }

  function HandoffMessage(w: Wording, cfg: Settings): string {
    var own := FirstHandoffText(cfg.flows);
    if own == "" then Escalation(w, cfg.profile) else own
  }

  /** The text of the first human_handoff flow, "" when it has none. */
  function FirstHandoffText(flows: Dict<Flow>): string {
    if flows == [] then ""
    else if flows[0].1.flowType.HumanHandoff? then Strip(flows[0].1.message.GetOr(""))
    else FirstHandoffText(flows[1..])
  }

  function HandoffMessageForFlow(w: Wording, flow: Flow, profile: Profile): string {
    var own := Strip(flow.message.GetOr(""));
    if own == "" then Escalation(w, profile) else own
  }

  function KindLabel(w: Wording, kind: Kind): string {
    match kind
    case Image => w.imageLabel
    case Pdf => w.pdfLabel
    case Doc => w.docLabel
    case Ppt => w.pptLabel
  }

  function KindLabels(w: Wording, kinds: seq<Kind>): seq<string> {
    if kinds == [] then [] else [KindLabel(w, kinds[0])] + KindLabels(w, kinds[1..])
  }

  function KindsPhrase(w: Wording, kinds: seq<Kind>): string {
    var labels := KindLabels(w, kinds);
    if labels == [] then w.fileLabel
    else if |labels| == 1 then labels[0]
    else Join(labels[..|labels| - 1], ", ") + w.orWord + labels[|labels| - 1]
  }

  // --- untrusted states ---------------------------------------------------------------

  /** A stored or client-sent state: `None` is a missing or ill-typed field. */
  datatype RawState = NotAnObject | RawState(
    phase: Option<Phase>,
    activeFlow: Option<string>,
    stepIndex: Option<int>,
    collected: Option<map<string, Answer>>)

  function NormalizeState(raw: RawState): State {
    match raw
    case NotAnObject => INITIAL_STATE
    case RawState(phase, flow, index, collected) =>
      State(phase.GetOr(Menu), flow, if index.Some? && index.value >= 0 then index.value else 0, collected.GetOr(map[]))
  }
}
