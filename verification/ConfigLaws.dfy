/** What validation guarantees: the validated configurations are exactly those
    within the bounds, and validating one again changes nothing. */
module ConfigLaws {
  import opened Wrappers
  import opened BotModel
  import opened OrderedDict
  import opened Text
  import opened BotConfig

  // --- the bounds ------------------------------------------------------------------

  ghost predicate TextWithin(s: string, min: nat, max: nat) {
    Stripped(s) && min <= |s| <= max
  }

  ghost predicate OptionalWithin(o: Option<string>, max: nat) {
    o.Some? ==> TextWithin(o.value, 0, max)
  }

  /** Stripped, non-blank, bounded and pairwise distinct. */
  ghost predicate CleanList(items: seq<string>, ignoreCase: bool, maxChars: nat) {
    && (forall i :: 0 <= i < |items| ==> TextWithin(items[i], 1, maxChars))
    && Distinct(items, ignoreCase)
  }

  ghost predicate StepBounds(s: Step) {
    && TextWithin(s.key, 1, 40) && KeyPattern(s.key)
    && TextWithin(s.question, 1, 500)
    && !s.kind.OtherStep?
    && OptionalWithin(s.hint, 40) && OptionalWithin(s.errorMessage, 200)
    && (if s.kind.ChoiceStep? then 2 <= |s.options| <= 12 && CleanList(s.options, false, 80)
        else s.options == [])
    && (if s.kind.FileStep? then s.accept != [] && AllKinds(s.accept) && Distinct(s.accept, false)
        else s.accept == [])
  }

  ghost predicate FlowBounds(f: Flow) {
    && TextWithin(f.labelText, 1, 80)
    && !f.flowType.OtherFlow?
    && |f.steps| <= 30
    && (forall i :: 0 <= i < |f.steps| ==> StepBounds(f.steps[i]))
    && UniqueStepKeys(f.steps)
    && (f.flowType.Lead? ==> f.steps != [])
    && (f.flowType.HumanHandoff? ==> f.steps == [])
    && OptionalWithin(f.serviceName, 80) && (!f.flowType.Booking? ==> f.serviceName.None?)
    && OptionalWithin(f.message, 1000)
  }

  ghost predicate ProfileBounds(p: Profile) {
    && TextWithin(p.name, 1, 80) && TextWithin(p.systemPrompt, 1, 4000)
    && TextWithin(p.tone, 0, 120) && TextWithin(p.greeting, 0, 1000) && TextWithin(p.escalationMessage, 0, 1000)
    && 5 <= p.autoCloseMinutes <= 1440
    && |p.menuKeywords| <= 20 && CleanList(p.menuKeywords, true, 40)
  }

  ghost predicate FlowsBounds(flows: Dict<Flow>) {
    |flows| <= 20 && forall i :: 0 <= i < |flows| ==> KeyPattern(flows[i].0) && FlowBounds(flows[i].1)
  }

  ghost predicate SettingsBounds(cfg: Settings) {
    && FlowsBounds(cfg.flows)
    && ProfileBounds(cfg.profile)
    && |cfg.handoffKeywords| <= 30 && CleanList(cfg.handoffKeywords, true, 40)
  }

  // --- lists --------------------------------------------------------------------------

  lemma {:induction false} PiecesAreStripped(items: seq<string>)
    ensures forall i :: 0 <= i < |Pieces(items, false)| ==>
      Stripped(Pieces(items, false)[i]) && Pieces(items, false)[i] != ""
  {
    if items != [] {
      PiecesAreStripped(items[..|items| - 1]);
      StripIsStripped(items[|items| - 1]);
    }
  }

  /** Items that are already clean are their own pieces. */
  lemma {:induction false} CleanPieces(items: seq<string>, lower: bool)
    requires forall i :: 0 <= i < |items| ==> items[i] != "" && Stripped(items[i]) && Fold(items[i], lower) == items[i]
    ensures Pieces(items, lower) == items
  {
    hide Strip, Stripped, Lower;
    if items != [] {
      CleanPieces(items[..|items| - 1], lower);
      StrippedIsFixed(items[|items| - 1]);
      assert items == items[..|items| - 1] + [items[|items| - 1]];
    }
  }

  /** What is kept is distinct, comes from the list in its order, and stands for
      every item of the list. */
  lemma {:induction false} DedupeLaws(items: seq<string>, ignoreCase: bool)
    ensures Distinct(Dedupe(items, ignoreCase), ignoreCase)
    ensures forall i :: 0 <= i < |Dedupe(items, ignoreCase)| ==> Dedupe(items, ignoreCase)[i] in items
    ensures forall i :: 0 <= i < |items| ==> Known(items[i], Dedupe(items, ignoreCase), ignoreCase)
    ensures |Dedupe(items, ignoreCase)| <= |items|
  {
    hide Fold, Known;
    if items != [] {
      var (front, last) := (items[..|items| - 1], items[|items| - 1]);
      DedupeLaws(front, ignoreCase);
      var before := Dedupe(front, ignoreCase);
      assert items == front + [last];
      DistinctGrows(before, last, ignoreCase);
      forall i | 0 <= i < |items| ensures Known(items[i], Dedupe(items, ignoreCase), ignoreCase) {
        if i < |front| { assert items[i] == front[i]; }
        StillKnown(items[i], before, last, ignoreCase);
      }
    }
  }

  lemma StillKnown(s: string, kept: seq<string>, last: string, ignoreCase: bool)
    ensures Known(s, kept, ignoreCase) || s == last ==> Known(s, kept + [last], ignoreCase)
  {
    if Known(s, kept, ignoreCase) {
      var j :| 0 <= j < |kept| && Fold(kept[j], ignoreCase) == Fold(s, ignoreCase);
      assert (kept + [last])[j] == kept[j];
    }
    assert (kept + [last])[|kept|] == last;
  }

  lemma DistinctGrows(kept: seq<string>, last: string, ignoreCase: bool)
    requires Distinct(kept, ignoreCase)
    ensures !Known(last, kept, ignoreCase) ==> Distinct(kept + [last], ignoreCase)
  {
    hide Fold;
  }

  /** A distinct list is kept whole. */
  lemma {:induction false} DedupeDistinct(items: seq<string>, ignoreCase: bool)
    requires Distinct(items, ignoreCase)
    ensures Dedupe(items, ignoreCase) == items
  {
    if items != [] {
      DedupeDistinct(items[..|items| - 1], ignoreCase);
    }
  }

  lemma KeywordsAreClean(items: seq<string>, max: nat)
    requires CleanKeywords(items, max).Valid?
    ensures |CleanKeywords(items, max).value| <= max &&
      CleanList(CleanKeywords(items, max).value, true, MAX_KEYWORD_CHARS)
  {
    hide Pieces, Dedupe, Known;
    PiecesAreStripped(items);
    DedupeLaws(Pieces(items, false), true);
  }

  lemma CleanKeywordsAreFixed(items: seq<string>, max: nat)
    requires |items| <= max && CleanList(items, true, MAX_KEYWORD_CHARS)
    ensures CleanKeywords(items, max) == Valid(items)
  {
    CleanPieces(items, false);
    DedupeDistinct(items, true);
  }

  lemma OptionsAreClean(items: seq<string>)
    requires CleanOptions(items).Valid?
    ensures 2 <= |CleanOptions(items).value| <= MAX_CHOICE_OPTIONS &&
      CleanList(CleanOptions(items).value, false, MAX_OPTION_CHARS)
  {
    PiecesAreStripped(items);
    DedupeLaws(Pieces(items, false), false);
  }

  lemma CleanOptionsAreFixed(items: seq<string>)
    requires 2 <= |items| <= MAX_CHOICE_OPTIONS && CleanList(items, false, MAX_OPTION_CHARS)
    ensures CleanOptions(items) == Valid(items)
  {
    CleanPieces(items, false);
    DedupeDistinct(items, false);
  }

  lemma KindNamesAreClean(name: string)
    requires KindNamed(name).Some?
    ensures name != "" && Stripped(name) && Lower(name) == name
  {
    LowerAt(name);
    assert forall i :: 0 <= i < |name| ==> Lower(name)[i] == name[i];
  }

  lemma AcceptIsClean(items: seq<string>)
    requires CleanAccept(items).Valid?
    ensures var kept := CleanAccept(items).value; kept != [] && AllKinds(kept) && Distinct(kept, false)
  {
    DedupeLaws(Pieces(items, true), false);
  }

  lemma CleanAcceptIsFixed(items: seq<string>)
    requires items != [] && AllKinds(items) && Distinct(items, false)
    ensures CleanAccept(items) == Valid(items)
  {
    forall i | 0 <= i < |items| ensures items[i] != "" && Stripped(items[i]) && Lower(items[i]) == items[i] {
      KindNamesAreClean(items[i]);
    }
    CleanPieces(items, true);
    DedupeDistinct(items, false);
  }

  // --- fields ---------------------------------------------------------------------------

  lemma ReadersAreWithin(f: Field<string>, max: nat)
    ensures ReadText(f, max).Valid? ==> TextWithin(ReadText(f, max).value, 1, max)
    ensures ReadDefaulted(f, max).Valid? ==> TextWithin(ReadDefaulted(f, max).value, 0, max)
    ensures ReadOptional(f, max).Valid? ==> OptionalWithin(ReadOptional(f, max).value, max)
  {
    if f.Is? { StripIsStripped(f.value); }
  }

  lemma ReadersAreFixed(s: string, max: nat)
    requires TextWithin(s, 0, max)
    ensures s != "" ==> ReadText(Is(s), max) == Valid(s)
    ensures ReadDefaulted(Is(s), max) == Valid(s)
    ensures ReadOptional(Is(s), max) == Valid(Some(s))
  {
    TrimmedIsFixed(s, SPACES);
  }

  lemma OptionalIsFixed(o: Option<string>, max: nat)
    requires OptionalWithin(o, max)
    ensures ReadOptional(DumpOptional(o), max) == Valid(o)
  {
    if o.Some? { ReadersAreFixed(o.value, max); }
  }

  // --- steps ------------------------------------------------------------------------------

  lemma StepIsWithin(raw: RawStep)
    requires ValidateStep(raw).Valid?
    ensures StepBounds(ValidateStep(raw).value)
  {
    ReadersAreWithin(raw.key, 40);
    ReadersAreWithin(raw.question, 500);
    ReadersAreWithin(raw.hint, 40);
    ReadersAreWithin(raw.errorMessage, 200);
    var s := ReadStep(raw).value;
    if s.kind.ChoiceStep? { OptionsAreClean(s.options); }
    if s.kind.FileStep? { AcceptIsClean(s.accept); }
  }

  lemma StepIsFixed(s: Step)
    requires StepBounds(s)
    ensures ValidateStep(DumpStep(s)) == Valid(s)
  {
    ReadersAreFixed(s.key, 40);
    ReadersAreFixed(s.question, 500);
    OptionalIsFixed(s.hint, 40);
    OptionalIsFixed(s.errorMessage, 200);
    assert ReadStep(DumpStep(s)) == Valid(s);
    if s.kind.ChoiceStep? { CleanOptionsAreFixed(s.options); }
    if s.kind.FileStep? { CleanAcceptIsFixed(s.accept); }
  }

  lemma {:induction false} StepsAreWithin(items: seq<RawItem>)
    requires ValidateSteps(items).Valid?
    ensures |ValidateSteps(items).value| == |items|
    ensures forall i :: 0 <= i < |items| ==> StepBounds(ValidateSteps(items).value[i])
  {
    if items != [] {
      StepIsWithin(items[0].step);
      StepsAreWithin(items[1..]);
    }
  }

  lemma {:induction false} StepsAreFixed(steps: seq<Step>)
    requires forall i :: 0 <= i < |steps| ==> StepBounds(steps[i])
    ensures ValidateSteps(DumpSteps(steps)) == Valid(steps) && |DumpSteps(steps)| == |steps|
  {
    hide ValidateStep, DumpStep, StepBounds;
    if steps != [] {
      StepIsFixed(steps[0]);
      StepsAreFixed(steps[1..]);
      assert DumpSteps(steps)[1..] == DumpSteps(steps[1..]);
      assert [steps[0]] + steps[1..] == steps;
    }
  }

  // --- flows ------------------------------------------------------------------------------

  lemma FlowIsWithin(raw: RawFlow)
    requires ValidateFlow(raw).Valid?
    ensures FlowBounds(ValidateFlow(raw).value)
  {
    ReadersAreWithin(raw.labelText, 80);
    ReadersAreWithin(raw.serviceName, 80);
    ReadersAreWithin(raw.message, 1000);
    if raw.steps.Is? { StepsAreWithin(raw.steps.value); }
  }

  lemma FlowIsFixed(f: Flow)
    requires FlowBounds(f)
    ensures ValidateFlow(DumpFlow(f)) == Valid(f)
  {
    ReadersAreFixed(f.labelText, 80);
    OptionalIsFixed(f.serviceName, 80);
    OptionalIsFixed(f.message, 1000);
    StepsAreFixed(f.steps);
  }

  lemma {:induction false} FlowsAreWithin(flows: Dict<RawFlow>)
    requires ValidateFlows(flows).Valid?
    ensures var valid := ValidateFlows(flows).value;
      && |valid| == |flows| && Keys(valid) == Keys(flows)
      && (Unique(flows) ==> Unique(valid))
      && forall i :: 0 <= i < |flows| ==> valid[i].0 == flows[i].0 && FlowBounds(valid[i].1)
  {
    if flows != [] {
      FlowIsWithin(flows[0].1);
      FlowsAreWithin(flows[1..]);
    }
  }

  lemma {:induction false} FlowsAreFixed(flows: Dict<Flow>)
    requires forall i :: 0 <= i < |flows| ==> FlowBounds(flows[i].1)
    ensures ValidateFlows(DumpFlows(flows)) == Valid(flows)
    ensures |DumpFlows(flows)| == |flows| && forall i :: 0 <= i < |flows| ==> DumpFlows(flows)[i].0 == flows[i].0
    ensures Keys(DumpFlows(flows)) == Keys(flows) && (Unique(flows) ==> Unique(DumpFlows(flows)))
  {
    hide ValidateFlow, DumpFlow, FlowBounds;
    if flows != [] {
      FlowIsFixed(flows[0].1);
      FlowsAreFixed(flows[1..]);
      assert DumpFlows(flows)[1..] == DumpFlows(flows[1..]);
      assert [(flows[0].0, flows[0].1)] + flows[1..] == flows;
    }
  }

  // --- the whole configuration ---------------------------------------------------------------

  lemma ProfileIsWithin(raw: RawProfile)
    requires ValidateProfile(raw).Valid?
    ensures ProfileBounds(ValidateProfile(raw).value)
  {
    ReadersAreWithin(raw.name, 80);
    ReadersAreWithin(raw.systemPrompt, 4000);
    ReadersAreWithin(raw.tone, 120);
    ReadersAreWithin(raw.greeting, 1000);
    ReadersAreWithin(raw.escalationMessage, 1000);
    if raw.menuKeywords.Is? { KeywordsAreClean(raw.menuKeywords.value, MAX_MENU_KEYWORDS); }
  }

  lemma ProfileIsFixed(p: Profile)
    requires ProfileBounds(p)
    ensures ValidateProfile(DumpProfile(p)) == Valid(p)
  {
    ReadersAreFixed(p.name, 80);
    ReadersAreFixed(p.systemPrompt, 4000);
    ReadersAreFixed(p.tone, 120);
    ReadersAreFixed(p.greeting, 1000);
    ReadersAreFixed(p.escalationMessage, 1000);
    CleanKeywordsAreFixed(p.menuKeywords, MAX_MENU_KEYWORDS);
  }

  /** Everything that validates is within every bound. */
  lemma ValidatedIsWithin(raw: RawSettings)
    requires Validate(raw).Valid?
    ensures SettingsBounds(Validate(raw).value)
  {
    FlowsAreWithin(raw.flows);
    ProfileIsWithin(raw.profile);
    if raw.handoffKeywords.Is? {
      KeywordsAreClean(raw.handoffKeywords.value, MAX_HANDOFF_KEYWORDS);
    } else {
      DefaultKeywordsAreClean();
    }
  }

  /** The defaults, which no validator looks at, satisfy the bounds all the same. */
  lemma DefaultKeywordsAreClean()
    ensures |DEFAULT_HANDOFF_KEYWORDS| <= MAX_HANDOFF_KEYWORDS
    ensures CleanList(DEFAULT_HANDOFF_KEYWORDS, true, MAX_KEYWORD_CHARS)
  {
    hide Lower;
    var words := DEFAULT_HANDOFF_KEYWORDS;
    LowerAt(words[0]);
    LowerAt(words[1]);
    LowerAt(words[2]);
    LowerAt(words[3]);
    assert Lower(words[2])[0] == 'h' && Lower(words[3])[0] == 'a';
  }

  /** Everything within the bounds validates to itself. */
  lemma WithinIsFixed(cfg: Settings)
    requires SettingsBounds(cfg)
    ensures Validate(Dump(cfg)) == Valid(cfg)
  {
    hide ValidateFlow, CleanKeywords, CleanList;
    FlowsAreFixed(cfg.flows);
    ProfileIsFixed(cfg.profile);
    CleanKeywordsAreFixed(cfg.handoffKeywords, MAX_HANDOFF_KEYWORDS);
  }

  /** Validating the dump of a validated configuration returns it unchanged. */
  lemma ValidationIsFixpoint(raw: RawSettings)
    requires Validate(raw).Valid?
    ensures Validate(Dump(Validate(raw).value)) == Validate(raw)
  {
    ValidatedIsWithin(raw);
    WithinIsFixed(Validate(raw).value);
  }

  /** The bounds are exactly what validation can produce. */
  lemma BoundsAreTheImage(cfg: Settings)
    ensures SettingsBounds(cfg) <==> exists raw :: Validate(raw) == Valid(cfg)
  {
    if SettingsBounds(cfg) {
      WithinIsFixed(cfg);
    }
    if raw :| Validate(raw) == Valid(cfg) {
      ValidatedIsWithin(raw);
    }
  }

  /** A validated configuration gives the engine what it relies on. */
  lemma ValidatedIsWellFormed(cfg: Settings)
    requires SettingsBounds(cfg) && Unique(cfg.flows)
    ensures WellFormed(cfg)
  {
  }
}
