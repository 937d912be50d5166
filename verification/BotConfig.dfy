/** The configuration validators: what untrusted JSON is turned into, or refused
    (backend/app/models/bot_builder.py). */
module BotConfig {
  import opened Wrappers
  import opened BotModel
  import opened OrderedDict
  import opened Text

  const MAX_FLOWS: nat := 20
  const MAX_STEPS_PER_FLOW: nat := 30
  const MAX_CHOICE_OPTIONS: nat := 12
  const MAX_MENU_KEYWORDS: nat := 20
  const MAX_HANDOFF_KEYWORDS: nat := 30
  const MAX_KEYWORD_CHARS: nat := 40
  const MAX_OPTION_CHARS: nat := 80

  const FILE_ACCEPT_KINDS: seq<string> := ["image", "pdf", "doc", "ppt"]

  /** The keywords of a configuration that does not mention any. */
  const DEFAULT_HANDOFF_KEYWORDS: seq<string> :=
    ["\U{05E0}\U{05E6}\U{05D9}\U{05D2}", "\U{05D0}\U{05D3}\U{05DD}", "human", "agent"]

  // --- raw JSON -----------------------------------------------------------------

  /** A JSON field; `Junk` is a value of the wrong type. */
  datatype Field<+T> = Absent | Null | Junk | Is(value: T)

  datatype RawStep = RawStep(
    key: Field<string>,
    question: Field<string>,
    kind: Field<StepType>,
    required: Field<bool>,
    hint: Field<string>,
    options: Field<seq<string>>,
    errorMessage: Field<string>,
    accept: Field<seq<string>>,
    unknown: set<string>)

  /** An entry of a `steps` list. */
  datatype RawItem = NotAnObject | Obj(step: RawStep)

  datatype RawFlow = RawFlow(
    labelText: Field<string>,
    flowType: Field<FlowType>,
    steps: Field<seq<RawItem>>,
    serviceName: Field<string>,
    message: Field<string>,
    unknown: set<string>)

  datatype RawProfile = RawProfile(
    name: Field<string>,
    systemPrompt: Field<string>,
    tone: Field<string>,
    language: Field<Language>,
    greeting: Field<string>,
    escalationMessage: Field<string>,
    autoCloseMinutes: Field<int>,
    menuKeywords: Field<seq<string>>,
    unknown: set<string>)

  datatype RawSettings = RawSettings(
    flows: Dict<RawFlow>,
    profile: RawProfile,
    handoffKeywords: Field<seq<string>>,
    published: bool)

  datatype Checked<+T> = Valid(value: T) | Invalid

  // --- field readers --------------------------------------------------------------

  /** A required text, stripped before its length is bounded. */
  function ReadText(f: Field<string>, max: nat): Checked<string> {
    match f
    case Is(s) => if 1 <= |Strip(s)| <= max then Valid(Strip(s)) else Invalid
    case _ => Invalid
  }

  /** A text that defaults to "". */
  function ReadDefaulted(f: Field<string>, max: nat): Checked<string> {
    match f
    case Absent => Valid("")
    case Is(s) => if |Strip(s)| <= max then Valid(Strip(s)) else Invalid
    case _ => Invalid
  }

  function ReadOptional(f: Field<string>, max: nat): Checked<Option<string>> {
    match f
    case Junk => Invalid
    case Is(s) => if |Strip(s)| <= max then Valid(Some(Strip(s))) else Invalid
    case _ => Valid(None)
  }

  function ReadOptionalList(f: Field<seq<string>>): Checked<seq<string>> {
    match f
    case Junk => Invalid
    case Is(items) => Valid(items)
    case _ => Valid([])
  }

  function KeyChar(c: char): bool {
    'a' <= c <= 'z' || '0' <= c <= '9' || c == '_' || c == ' ' || '\U{0590}' <= c <= '\U{05FF}'
  }

  /** KEY_PATTERN: 1..40 allowed characters. */
  predicate KeyPattern(s: string) {
    1 <= |s| <= 40 && forall i :: 0 <= i < |s| ==> KeyChar(s[i])
  }

  // --- lists: trim, drop blanks, dedupe ---------------------------------------------

  function Fold(s: string, ignoreCase: bool): string { if ignoreCase then Lower(s) else s }

  /** The stripped (and, for file kinds, lowered) items that are not blank. */
  function Pieces(items: seq<string>, lower: bool): seq<string> {
    if items == [] then []
    else
      var piece := Fold(Strip(items[|items| - 1]), lower);
      Pieces(items[..|items| - 1], lower) + (if piece == "" then [] else [piece])
  }

  /** The items under which an equal one has been kept. */
  predicate Known(s: string, kept: seq<string>, ignoreCase: bool) {
    exists i :: 0 <= i < |kept| && Fold(kept[i], ignoreCase) == Fold(s, ignoreCase)
  }

  /** First occurrences, in order. */
  function Dedupe(items: seq<string>, ignoreCase: bool): seq<string> {
    if items == [] then []
    else
      var kept := Dedupe(items[..|items| - 1], ignoreCase);
      if Known(items[|items| - 1], kept, ignoreCase) then kept else kept + [items[|items| - 1]]
  }

  predicate Distinct(items: seq<string>, ignoreCase: bool) {
    forall i, j :: 0 <= i < j < |items| ==> Fold(items[i], ignoreCase) != Fold(items[j], ignoreCase)
  }

  predicate AllWithin(items: seq<string>, max: nat) {
    forall i :: 0 <= i < |items| ==> |items[i]| <= max
  }

  function CleanKeywords(items: seq<string>, max: nat): Checked<seq<string>> {
    var pieces := Pieces(items, false);
    var kept := Dedupe(pieces, true);
    if AllWithin(pieces, MAX_KEYWORD_CHARS) && |kept| <= max then Valid(kept) else Invalid
  }

  function CleanOptions(items: seq<string>): Checked<seq<string>> {
    var kept := Dedupe(Pieces(items, false), false);
    if 2 <= |kept| <= MAX_CHOICE_OPTIONS && AllWithin(kept, MAX_OPTION_CHARS) then Valid(kept) else Invalid
  }

  predicate AllKinds(items: seq<string>) {
    forall i :: 0 <= i < |items| ==> KindNamed(items[i]).Some?
  }

  function CleanAccept(items: seq<string>): Checked<seq<string>> {
    var pieces := Pieces(items, true);
    var kept := Dedupe(pieces, false);
    if !AllKinds(pieces) then Invalid
    else Valid(if kept == [] then FILE_ACCEPT_KINDS else kept)
  }

  // --- validation ---------------------------------------------------------------------

  /** The fields of a step, before the model-level rule. */
  function ReadStep(raw: RawStep): Checked<Step> {
    var key := ReadText(raw.key, 40);
    var question := ReadText(raw.question, 500);
    var hint := ReadOptional(raw.hint, 40);
    var errorMessage := ReadOptional(raw.errorMessage, 200);
    var options := ReadOptionalList(raw.options);
    var accept := ReadOptionalList(raw.accept);
    if raw.unknown == {} && key.Valid? && KeyPattern(key.value) && question.Valid?
       && raw.kind.Is? && !raw.kind.value.OtherStep? && raw.required.Is?
       && hint.Valid? && errorMessage.Valid? && options.Valid? && accept.Valid?
    then Valid(Step(key.value, question.value, raw.kind.value, raw.required.value,
                    hint.value, options.value, errorMessage.value, accept.value))
    else Invalid
  }

  /** Only choice steps carry options, only file steps an accept list. */
  function StepRule(s: Step): Checked<Step> {
    var options := if s.kind.ChoiceStep? then CleanOptions(s.options) else Valid([]);
    var accept := if s.kind.FileStep? then CleanAccept(s.accept) else Valid([]);
    if options.Valid? && accept.Valid? then Valid(s.(options := options.value, accept := accept.value)) else Invalid
  }

  function ValidateStep(raw: RawStep): Checked<Step> {
    var fields := ReadStep(raw);
    if fields.Valid? then StepRule(fields.value) else Invalid
  }

  function ValidateSteps(items: seq<RawItem>): Checked<seq<Step>> {
    if items == [] then Valid([])
    else if items[0].NotAnObject? then Invalid
    else
      var first := ValidateStep(items[0].step);
      var rest := ValidateSteps(items[1..]);
      if first.Valid? && rest.Valid? then Valid([first.value] + rest.value) else Invalid
  }

  predicate DistinctKeys(steps: seq<Step>) {
    forall i, j :: 0 <= i < j < |steps| ==> steps[i].key != steps[j].key
  }

  /** human_handoff flows have no steps, lead flows at least one; only booking
      flows keep a service name; step keys are distinct. */
  function FlowRule(f: Flow): Checked<Flow> {
    if (f.flowType.HumanHandoff? && f.steps != []) || (f.flowType.Lead? && f.steps == []) || !DistinctKeys(f.steps)
    then Invalid
    else Valid(if f.flowType.Booking? then f else f.(serviceName := None))
  }

  function ValidateFlow(raw: RawFlow): Checked<Flow> {
    var labelText := ReadText(raw.labelText, 80);
    var steps := match raw.steps
      case Absent => Valid([])
      case Is(items) => if |items| <= MAX_STEPS_PER_FLOW then ValidateSteps(items) else Invalid
      case _ => Invalid;
    var serviceName := ReadOptional(raw.serviceName, 80);
    var message := ReadOptional(raw.message, 1000);
    if raw.unknown == {} && labelText.Valid? && raw.flowType.Is? && !raw.flowType.value.OtherFlow?
       && steps.Valid? && serviceName.Valid? && message.Valid?
    then FlowRule(Flow(labelText.value, raw.flowType.value, steps.value, serviceName.value, message.value))
    else Invalid
  }

  function ValidateFlows(flows: Dict<RawFlow>): Checked<Dict<Flow>> {
    if flows == [] then Valid([])
    else
      var first := ValidateFlow(flows[0].1);
      var rest := ValidateFlows(flows[1..]);
      if first.Valid? && rest.Valid? then Valid([(flows[0].0, first.value)] + rest.value) else Invalid
  }

  predicate FlowNamesOk<V>(flows: Dict<V>) {
    |flows| <= MAX_FLOWS && forall i :: 0 <= i < |flows| ==> KeyPattern(flows[i].0)
  }

  function ValidateProfile(raw: RawProfile): Checked<Profile> {
    var name := ReadText(raw.name, 80);
    var systemPrompt := ReadText(raw.systemPrompt, 4000);
    var tone := ReadDefaulted(raw.tone, 120);
    var greeting := ReadDefaulted(raw.greeting, 1000);
    var escalation := ReadDefaulted(raw.escalationMessage, 1000);
    var language := match raw.language
      case Absent => Valid(Hebrew)
      case Is(l) => Valid(l)
      case _ => Invalid;
    var minutes := match raw.autoCloseMinutes
      case Absent => Valid(60)
      case Is(n) => if 5 <= n <= 1440 then Valid(n) else Invalid
      case _ => Invalid;
    var keywords := match raw.menuKeywords
      case Absent => Valid([])
      case Is(items) => CleanKeywords(items, MAX_MENU_KEYWORDS)
      case _ => Invalid;
    if raw.unknown == {} && name.Valid? && systemPrompt.Valid? && tone.Valid? && greeting.Valid?
       && escalation.Valid? && language.Valid? && minutes.Valid? && keywords.Valid?
    then Valid(Profile(name.value, systemPrompt.value, tone.value, language.value, greeting.value,
                       escalation.value, minutes.value, keywords.value))
    else Invalid
  }

  function ValidateHandoff(raw: Field<seq<string>>): Checked<seq<string>> {
    match raw
    case Absent => Valid(DEFAULT_HANDOFF_KEYWORDS)
    case Is(items) => CleanKeywords(items, MAX_HANDOFF_KEYWORDS)
    case _ => Invalid
  }

  function Validate(raw: RawSettings): Checked<Settings> {
    var flows := ValidateFlows(raw.flows);
    var profile := ValidateProfile(raw.profile);
    var handoff := ValidateHandoff(raw.handoffKeywords);
    if flows.Valid? && FlowNamesOk(raw.flows) && profile.Valid? && handoff.Valid?
    then Valid(Settings(flows.value, profile.value, handoff.value, raw.published))
    else Invalid
  }

  // --- the dump a validated configuration is stored and read back as ---------------------

  function DumpOptional(o: Option<string>): Field<string> {
    if o.Some? then Is(o.value) else Null
  }

  function DumpStep(s: Step): RawStep {
    RawStep(Is(s.key), Is(s.question), Is(s.kind), Is(s.required), DumpOptional(s.hint),
            if s.kind.ChoiceStep? then Is(s.options) else Null, DumpOptional(s.errorMessage),
            if s.kind.FileStep? then Is(s.accept) else Null, {})
  }

  function DumpSteps(steps: seq<Step>): seq<RawItem> {
    if steps == [] then [] else [Obj(DumpStep(steps[0]))] + DumpSteps(steps[1..])
  }

  function DumpFlow(f: Flow): RawFlow {
    RawFlow(Is(f.labelText), Is(f.flowType), Is(DumpSteps(f.steps)), DumpOptional(f.serviceName),
      DumpOptional(f.message), {})
  }

  function DumpFlows(flows: Dict<Flow>): Dict<RawFlow> {
    if flows == [] then [] else [(flows[0].0, DumpFlow(flows[0].1))] + DumpFlows(flows[1..])
  }

  function DumpProfile(p: Profile): RawProfile {
    RawProfile(Is(p.name), Is(p.systemPrompt), Is(p.tone), Is(p.language), Is(p.greeting),
               Is(p.escalationMessage), Is(p.autoCloseMinutes), Is(p.menuKeywords), {})
  }

  function Dump(cfg: Settings): RawSettings {
    RawSettings(DumpFlows(cfg.flows), DumpProfile(cfg.profile), Is(cfg.handoffKeywords), cfg.published)
  }
}
