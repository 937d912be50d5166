/** A lead questionnaire seen as a whole: the engine run refines filling in a
    form step by step. */
module Questionnaire {
  import opened Wrappers
  import opened BotModel
  import opened OrderedDict
  import opened Text
  import opened BotEngine
  import opened EngineLaws

  /** The reference: each input answers the first open step or is asked again. */
  function Filled(w: Wording, steps: seq<Step>, inputs: seq<Input>): (answers: seq<Answer>)
    ensures |answers| <= |steps|
  {
    if inputs == [] then []
    else
      var before := Filled(w, steps, inputs[..|inputs| - 1]);
      if |before| == |steps| then before
      else
        match Judge(w, steps[|before|], inputs[|inputs| - 1])
        case Accepted(answer) => before + [answer]
        case Rejected(_) => before
  }

  /** The filled-in form: step key to answer. */
  function Sheet(steps: seq<Step>, answers: seq<Answer>): map<string, Answer>
    requires |answers| <= |steps|
  {
    if answers == [] then map[]
    else Sheet(steps, answers[..|answers| - 1])[steps[|answers| - 1].key := answers[|answers| - 1]]
  }

  /** The input is neither blank nor a keyword; a file that lands on a file step
      is an answer whatever its caption says. */
  predicate OnTopic(w: Wording, cfg: Settings, step: Step, input: Input) {
    && !IsBlank(input)
    && ((NormalizeMedia(input.media).Some? && step.kind.FileStep?)
        || (!MatchesMenuKeyword(w, cfg, Strip(input.message)) && !MatchesHandoffKeyword(cfg, Strip(input.message))))
  }

  /** Every input is on topic for the step it meets. */
  predicate AllOnTopic(w: Wording, cfg: Settings, steps: seq<Step>, inputs: seq<Input>) {
    inputs == [] ||
    (var before := inputs[..|inputs| - 1];
     && AllOnTopic(w, cfg, steps, before)
     && (|Filled(w, steps, before)| < |steps| ==>
          OnTopic(w, cfg, steps[|Filled(w, steps, before)|], inputs[|inputs| - 1])))
  }

  /** With distinct keys the form holds each answer under its step's key and
      nothing else. */
  lemma {:induction false} SheetIsExact(steps: seq<Step>, answers: seq<Answer>)
    requires |answers| <= |steps| && UniqueStepKeys(steps)
    ensures forall i :: 0 <= i < |answers| ==>
      steps[i].key in Sheet(steps, answers) && Sheet(steps, answers)[steps[i].key] == answers[i]
    ensures forall key :: key in Sheet(steps, answers) ==> exists i :: 0 <= i < |answers| && steps[i].key == key
  {
    if answers != [] {
      SheetIsExact(steps, answers[..|answers| - 1]);
    }
  }

  /** Picking a lead flow from the menu starts it at its first step. */
  lemma PickingStarts(w: Wording, cfg: Settings, input: Input, k: nat)
    requires k < |cfg.flows| && cfg.flows[k].1.flowType.Lead? && cfg.flows[k].1.steps != []
    requires PickFlow(Strip(input.message), cfg.flows) == Some(k)
    requires !MatchesMenuKeyword(w, cfg, Strip(input.message)) && !MatchesHandoffKeyword(cfg, Strip(input.message))
    ensures Advance(w, cfg, MENU_STATE, input).state == StartOf(cfg.flows[k].0)
    ensures Advance(w, cfg, MENU_STATE, input).event.NoEvent?
  {
  }

  /** The state while a questionnaire is being filled in. */
  function Progress(name: string, steps: seq<Step>, answers: seq<Answer>): State
    requires |answers| <= |steps|
  {
    State(InFlow, Some(name), |answers|, Sheet(steps, answers))
  }

  /** An on-topic input reaches the open step. */
  lemma ReachesOpenStep(w: Wording, cfg: Settings, k: nat, st: State, input: Input)
    requires WellFormed(cfg) && k < |cfg.flows|
    requires st.phase.InFlow? && st.activeFlow == Some(cfg.flows[k].0)
    requires st.stepIndex < |cfg.flows[k].1.steps|
    requires OnTopic(w, cfg, cfg.flows[k].1.steps[st.stepIndex], input)
    ensures FindFlow(cfg.flows, st.activeFlow) == Some(cfg.flows[k].1)
    ensures Advance(w, cfg, st, input) == AdvanceInFlow(w, cfg, st, Strip(input.message), NormalizeMedia(input.media))
  {
    GetAt(cfg.flows, k);
  }

  lemma SheetGrows(steps: seq<Step>, answers: seq<Answer>, answer: Answer)
    requires |answers| < |steps|
    ensures Sheet(steps, answers + [answer]) == Sheet(steps, answers)[steps[|answers|].key := answer]
  {
    assert (answers + [answer])[..|answers|] == answers;
  }

  /** One on-topic input moves the engine exactly as it moves the form. */
  lemma OneAnswer(w: Wording, cfg: Settings, k: nat, answers: seq<Answer>, input: Input)
    requires WellFormed(cfg) && k < |cfg.flows|
    requires |answers| < |cfg.flows[k].1.steps|
    requires OnTopic(w, cfg, cfg.flows[k].1.steps[|answers|], input)
    ensures
      var (name, steps) := (cfg.flows[k].0, cfg.flows[k].1.steps);
      var t := Advance(w, cfg, Progress(name, steps, answers), input);
      var verdict := Judge(w, steps[|answers|], input);
      && (verdict.Rejected? ==> t.state == Progress(name, steps, answers) && t.event.NoEvent?)
      && (verdict.Accepted? && |answers| + 1 < |steps| ==>
           t.state == Progress(name, steps, answers + [verdict.answer]) && t.event.NoEvent?)
      && (verdict.Accepted? && |answers| + 1 == |steps| ==>
           t.state == MENU_STATE && t.event.LeadCompleted? && t.lead == Some(Sheet(steps, answers + [verdict.answer])))
  {
    hide Advance, ValidateAnswer, Sheet, OnTopic;
    var (name, steps) := (cfg.flows[k].0, cfg.flows[k].1.steps);
    ReachesOpenStep(w, cfg, k, Progress(name, steps, answers), input);
    var verdict := Judge(w, steps[|answers|], input);
    if verdict.Accepted? {
      SheetGrows(steps, answers, verdict.answer);
    }
  }

  /** While steps remain open the engine's state is the form filled in so far. */
  lemma {:induction false} RunIsTheForm(w: Wording, cfg: Settings, k: nat, inputs: seq<Input>)
    requires WellFormed(cfg) && k < |cfg.flows|
    requires AllOnTopic(w, cfg, cfg.flows[k].1.steps, inputs)
    requires |Filled(w, cfg.flows[k].1.steps, inputs)| < |cfg.flows[k].1.steps|
    ensures Converse(w, cfg, StartOf(cfg.flows[k].0), inputs)
         == Progress(cfg.flows[k].0, cfg.flows[k].1.steps, Filled(w, cfg.flows[k].1.steps, inputs))
  {
    if inputs != [] {
      var (steps, before, last) := (cfg.flows[k].1.steps, inputs[..|inputs| - 1], inputs[|inputs| - 1]);
      assert |Filled(w, steps, before)| <= |Filled(w, steps, inputs)|;
      RunIsTheForm(w, cfg, k, before);
      OneAnswer(w, cfg, k, Filled(w, steps, before), last);
    }
  }

  /** A questionnaire of n steps completes on exactly the input that is accepted
      as the n-th answer, with any rejected inputs in between, and the lead is
      the filled-in form. */
  lemma CompletesOnLastAcceptedAnswer(w: Wording, cfg: Settings, k: nat, inputs: seq<Input>, last: Input)
    requires WellFormed(cfg) && k < |cfg.flows|
    requires AllOnTopic(w, cfg, cfg.flows[k].1.steps, inputs + [last])
    requires |Filled(w, cfg.flows[k].1.steps, inputs)| < |cfg.flows[k].1.steps|
    ensures var (name, steps) := (cfg.flows[k].0, cfg.flows[k].1.steps);
      var t := Advance(w, cfg, Converse(w, cfg, StartOf(name), inputs), last);
      var filled := Filled(w, steps, inputs + [last]);
      && (t.event.LeadCompleted? <==> |filled| == |steps|)
      && (t.event.LeadCompleted? ==> t.lead == Some(Sheet(steps, filled)))
      && (!t.event.LeadCompleted? ==> t.event.NoEvent? && t.state == Progress(name, steps, filled))
  {
    assert (inputs + [last])[..|inputs|] == inputs;
    RunIsTheForm(w, cfg, k, inputs);
    OneAnswer(w, cfg, k, Filled(w, cfg.flows[k].1.steps, inputs), last);
  }

  lemma {:induction false} ConverseFrom(w: Wording, cfg: Settings, st: State, first: Input, inputs: seq<Input>)
    ensures Converse(w, cfg, st, [first] + inputs) == Converse(w, cfg, Advance(w, cfg, st, first).state, inputs)
  {
    hide Advance;
    if inputs == [] {
      assert [first] + inputs == [first] && [first][..0] == [];
    } else {
      ConverseFrom(w, cfg, st, first, inputs[..|inputs| - 1]);
      assert ([first] + inputs)[..|inputs|] == [first] + inputs[..|inputs| - 1];
    }
  }

  /** From the menu to the lead: picking a lead flow and then answering it, with
      any rejected answers in between, completes on the n-th accepted answer and
      hands over the form under the flow's step keys. */
  lemma FromMenuToLead(w: Wording, cfg: Settings, k: nat, pick: Input, inputs: seq<Input>, last: Input)
    requires WellFormed(cfg) && k < |cfg.flows| && cfg.flows[k].1.flowType.Lead? && cfg.flows[k].1.steps != []
    requires PickFlow(Strip(pick.message), cfg.flows) == Some(k)
    requires !MatchesMenuKeyword(w, cfg, Strip(pick.message)) && !MatchesHandoffKeyword(cfg, Strip(pick.message))
    requires AllOnTopic(w, cfg, cfg.flows[k].1.steps, inputs + [last])
    requires |Filled(w, cfg.flows[k].1.steps, inputs)| < |cfg.flows[k].1.steps|
    ensures
      var t := Advance(w, cfg, Converse(w, cfg, MENU_STATE, [pick] + inputs), last);
      var answers := Filled(w, cfg.flows[k].1.steps, inputs + [last]);
      && (t.event.LeadCompleted? <==> |answers| == |cfg.flows[k].1.steps|)
      && (t.event.LeadCompleted? ==> t.lead == Some(Sheet(cfg.flows[k].1.steps, answers)))
  {
    hide Advance, Filled, Sheet, AllOnTopic;
    PickingStarts(w, cfg, pick, k);
    ConverseFrom(w, cfg, MENU_STATE, pick, inputs);
    CompletesOnLastAcceptedAnswer(w, cfg, k, inputs, last);
  }
}
