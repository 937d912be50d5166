/** The bot configuration as the engine reads it and the validators produce it,
    and the attachment reference a customer message may carry. */
module BotModel {
  import opened Wrappers
  import opened OrderedDict

  /** `OtherStep`/`OtherFlow` stand for any type name outside the closed vocabulary. */
  datatype StepType = TextStep | PhoneStep | EmailStep | ChoiceStep | FileStep | OtherStep
  datatype FlowType = Lead | HumanHandoff | Booking | OtherFlow

  /** What a file step may accept, in the owner's words. */
  datatype Kind = Image | Pdf | Doc | Ppt

  /** The stored mime types; `OtherMime` is every type outside the table. */
  datatype Mime = Jpeg | Png | Webp | PdfMime | MsWord | Docx | MsPowerpoint | Pptx | OtherMime

  /** A missing `options`/`accept` list is the empty sequence. */
  datatype Step = Step(
    key: string,
    question: string,
    kind: StepType,
    required: bool,
    hint: Option<string>,
    options: seq<string>,
    errorMessage: Option<string>,
    accept: seq<string>)

  datatype Flow = Flow(
    labelText: string,
    flowType: FlowType,
    steps: seq<Step>,
    serviceName: Option<string>,
    message: Option<string>)

  datatype Language = Hebrew | English

  datatype Profile = Profile(
    name: string,
    systemPrompt: string,
    tone: string,
    language: Language,
    greeting: string,
    escalationMessage: string,
    autoCloseMinutes: int,
    menuKeywords: seq<string>)

  /** `flows` is the insertion-ordered `lead_steps` object: flow by name. */
  datatype Settings = Settings(
    flows: Dict<Flow>,
    profile: Profile,
    handoffKeywords: seq<string>,
    published: bool)

  datatype FileRef = FileRef(fileId: string, mime: Mime, name: string)

  function KindNamed(name: string): Option<Kind> {
    if name == "image" then Some(Image)
    else if name == "pdf" then Some(Pdf)
    else if name == "doc" then Some(Doc)
    else if name == "ppt" then Some(Ppt)
    else None
  }

  ghost predicate UniqueStepKeys(steps: seq<Step>) {
    forall i, j :: 0 <= i < j < |steps| ==> steps[i].key != steps[j].key
  }

  /** What the engine relies on: distinct non-empty flow names, and step keys
      distinct within their flow. */
  ghost predicate WellFormed(cfg: Settings) {
    && Unique(cfg.flows)
    && (forall i :: 0 <= i < |cfg.flows| ==> cfg.flows[i].0 != "" && UniqueStepKeys(cfg.flows[i].1.steps))
  }
}
