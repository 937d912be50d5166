/** Validation from input to output: which raw configurations validate, and what each
    field of the result is in terms of the field it was read from. */
module ValidationLaws {
  import opened Wrappers
  import opened BotModel
  import opened OrderedDict
  import opened Text
  import opened BotConfig
  import opened ConfigLaws

  // --- texts ------------------------------------------------------------------------

  /** A required text is the given one, stripped. */
  ghost predicate ReadsText(f: Field<string>, s: string) { f.Is? && s == Strip(f.value) }

  /** A defaulted text is the given one, stripped, or empty when absent; null is refused. */
  ghost predicate ReadsDefaulted(f: Field<string>, s: string) {
    (f.Absent? && s == "") || (f.Is? && s == Strip(f.value))
  }

  /** An optional text is the given one, stripped, or none when absent or null. */
  ghost predicate ReadsOptional(f: Field<string>, o: Option<string>) {
    ((f.Absent? || f.Null?) && o.None?) || (f.Is? && o == Some(Strip(f.value)))
  }

  /** Fit to be read as an optional text, whether or not it is kept. */
  ghost predicate Readable(f: Field<string>, max: nat) {
    f.Absent? || f.Null? || (f.Is? && |Strip(f.value)| <= max)
  }

  lemma TextIff(f: Field<string>, max: nat, s: string)
    ensures ReadText(f, max) == Valid(s) <==> ReadsText(f, s) && TextWithin(s, 1, max)
  {
    hide Strip;
    if f.Is? { StripIsStripped(f.value); }
  }

  lemma DefaultedIff(f: Field<string>, max: nat, s: string)
    ensures ReadDefaulted(f, max) == Valid(s) <==> ReadsDefaulted(f, s) && TextWithin(s, 0, max)
  {
    hide Strip;
    if f.Is? { StripIsStripped(f.value); }
  }

  lemma OptionalIff(f: Field<string>, max: nat, o: Option<string>)
    ensures ReadOptional(f, max) == Valid(o) <==> ReadsOptional(f, o) && OptionalWithin(o, max)
    ensures ReadOptional(f, max).Valid? <==> Readable(f, max)
  {
    hide Strip;
    if f.Is? { StripIsStripped(f.value); }
  }

  // --- lists -------------------------------------------------------------------------

  function Piece(s: string, lower: bool): string { if lower then Lower(Strip(s)) else Strip(s) }

  function Cased(s: string, ignoreCase: bool): string { if ignoreCase then Lower(s) else s }

  /** Position `p` holds the first item of its kind, and not a blank one. */
  ghost predicate IsFirst(items: seq<string>, p: int, lower: bool, ignoreCase: bool)
    requires 0 <= p < |items|
  {
    && Piece(items[p], lower) != ""
    && forall q :: 0 <= q < p ==> Cased(Piece(items[q], lower), ignoreCase) != Cased(Piece(items[p], lower), ignoreCase)
  }

  /** `at` names the positions of the items that are kept, in order: exactly the first
      of each kind. */
  ghost predicate KeptAt(items: seq<string>, out: seq<string>, lower: bool, ignoreCase: bool, at: seq<int>) {
    && |at| == |out|
    && (forall i :: 0 <= i < |at| ==> 0 <= at[i] < |items| && out[i] == Piece(items[at[i]], lower))
    && (forall i, j :: 0 <= i < j < |at| ==> at[i] < at[j])
    && (forall p :: 0 <= p < |items| ==> (p in at <==> IsFirst(items, p, lower, ignoreCase)))
  }

  ghost predicate ReadsList(items: seq<string>, out: seq<string>, lower: bool, ignoreCase: bool) {
    exists at :: KeptAt(items, out, lower, ignoreCase, at)
  }

  lemma HasMember(a: seq<int>)
    ensures a != [] ==> exists x :: x in a
  {
    if a != [] {
      var first := a[0];
      assert first in a;
    }
  }

  /** The positions are determined, so the list is. */
  lemma {:induction false} SamePositions(a: seq<int>, b: seq<int>)
    requires forall i, j :: 0 <= i < j < |a| ==> a[i] < a[j]
    requires forall i, j :: 0 <= i < j < |b| ==> b[i] < b[j]
    requires forall x :: x in a <==> x in b
    ensures a == b
  {
    if a == [] || b == [] {
      HasMember(a);
      HasMember(b);
    } else {
      var (x, y) := (a[|a| - 1], b[|b| - 1]);
      assert x in b && y in a;
      assert x == y;
      var (a', b') := (a[..|a| - 1], b[..|b| - 1]);
      forall z ensures z in a' <==> z in b' {
        assert z in a' <==> z in a && z != x;
        assert z in b' <==> z in b && z != y;
      }
      SamePositions(a', b');
      assert a == a' + [x] && b == b' + [y];
    }
  }

  lemma ReadingIsUnique(items: seq<string>, x: seq<string>, y: seq<string>, lower: bool, ignoreCase: bool)
    requires ReadsList(items, x, lower, ignoreCase) && ReadsList(items, y, lower, ignoreCase)
    ensures x == y
  {
    hide IsFirst, Piece;
    var a :| KeptAt(items, x, lower, ignoreCase, a);
    var b :| KeptAt(items, y, lower, ignoreCase, b);
    forall p ensures p in a <==> p in b {
      if p in a { assert 0 <= p < |items|; }
      if p in b { assert 0 <= p < |items|; }
    }
    SamePositions(a, b);
  }

  lemma {:induction false} PiecesFrom(items: seq<string>, lower: bool, s: string)
    ensures s in Pieces(items, lower) <==> exists q :: 0 <= q < |items| && Piece(items[q], lower) == s && s != ""
  {
    hide Strip, Lower;
    if items != [] {
      var (front, last) := (items[..|items| - 1], items[|items| - 1]);
      PiecesFrom(front, lower, s);
      assert Fold(Strip(last), lower) == Piece(last, lower);
      if q :| 0 <= q < |items| && Piece(items[q], lower) == s && s != "" && q < |front| { assert front[q] == items[q]; }
      if q :| 0 <= q < |front| && Piece(front[q], lower) == s && s != "" { assert items[q] == front[q]; }
    }
  }

  /** A piece is already kept exactly when an earlier item was of its kind. */
  lemma KnownMeansEarlier(items: seq<string>, lower: bool, ignoreCase: bool, s: string)
    requires s != ""
    ensures Known(s, Dedupe(Pieces(items, lower), ignoreCase), ignoreCase) <==>
      exists q :: 0 <= q < |items| && Cased(Piece(items[q], lower), ignoreCase) == Cased(s, ignoreCase)
  {
    hide Pieces, Dedupe, Strip, Lower;
    var pieces := Pieces(items, lower);
    var kept := Dedupe(pieces, ignoreCase);
    DedupeLaws(pieces, ignoreCase);
    if Known(s, kept, ignoreCase) {
      var i :| 0 <= i < |kept| && Fold(kept[i], ignoreCase) == Fold(s, ignoreCase);
      PiecesFrom(items, lower, kept[i]);
      var q :| 0 <= q < |items| && Piece(items[q], lower) == kept[i] && kept[i] != "";
      assert Cased(Piece(items[q], lower), ignoreCase) == Cased(s, ignoreCase);
    }
    if q :| 0 <= q < |items| && Cased(Piece(items[q], lower), ignoreCase) == Cased(s, ignoreCase) {
      var piece := Piece(items[q], lower);
      CasedIsEmpty(piece, ignoreCase);
      CasedIsEmpty(s, ignoreCase);
      PiecesFrom(items, lower, piece);
      assert piece in pieces;
      var i :| 0 <= i < |pieces| && pieces[i] == piece;
      assert Known(pieces[i], kept, ignoreCase);
    }
  }

  lemma CasedIsEmpty(s: string, ignoreCase: bool)
    ensures Cased(s, ignoreCase) == "" <==> s == ""
  {
    LowerAt(s);
  }

  /** Cleaning a list keeps exactly the first of each kind, in order. */
  lemma {:induction false} DedupeReads(items: seq<string>, lower: bool, ignoreCase: bool)
    ensures ReadsList(items, Dedupe(Pieces(items, lower), ignoreCase), lower, ignoreCase)
  {
    if items == [] {
      assert KeptAt(items, Dedupe(Pieces(items, lower), ignoreCase), lower, ignoreCase, []);
    } else {
      var (front, last) := (items[..|items| - 1], items[|items| - 1]);
      DedupeReads(front, lower, ignoreCase);
      var before := Dedupe(Pieces(front, lower), ignoreCase);
      var at :| KeptAt(front, before, lower, ignoreCase, at);
      var piece := Piece(last, lower);
      var out := Dedupe(Pieces(items, lower), ignoreCase);
      OneMorePiece(items, lower, ignoreCase);
      if piece != "" { KnownMeansEarlier(front, lower, ignoreCase, piece); }
      hide Pieces, Dedupe, Strip, Lower, Known, Cased;
      LastIsFirst(items, lower, ignoreCase);
      OneMoreKept(items, before, lower, ignoreCase, at);
    }
  }

  lemma OneMorePiece(items: seq<string>, lower: bool, ignoreCase: bool)
    requires items != []
    ensures
      var piece := Piece(items[|items| - 1], lower);
      var before := Dedupe(Pieces(items[..|items| - 1], lower), ignoreCase);
      Dedupe(Pieces(items, lower), ignoreCase) ==
        if piece == "" || Known(piece, before, ignoreCase) then before else before + [piece]
  {
    hide Strip, Lower, Known;
    var (front, piece) := (items[..|items| - 1], Piece(items[|items| - 1], lower));
    var pieces := Pieces(front, lower);
    assert pieces + [] == pieces && (pieces + [piece])[..|pieces|] == pieces;
  }

  lemma LastIsFirst(items: seq<string>, lower: bool, ignoreCase: bool)
    requires items != []
    ensures
      var front := items[..|items| - 1];
      var piece := Piece(items[|items| - 1], lower);
      IsFirst(items, |items| - 1, lower, ignoreCase) <==>
        piece != "" &&
        !exists q :: 0 <= q < |front| && Cased(Piece(front[q], lower), ignoreCase) == Cased(piece, ignoreCase)
  {
    hide Piece, Cased;
    var front := items[..|items| - 1];
    assert forall q :: 0 <= q < |front| ==> front[q] == items[q];
  }

  lemma OneMoreKept(items: seq<string>, before: seq<string>, lower: bool, ignoreCase: bool, at: seq<int>)
    requires items != [] && KeptAt(items[..|items| - 1], before, lower, ignoreCase, at)
    ensures
      var last := |items| - 1;
      if IsFirst(items, last, lower, ignoreCase)
      then KeptAt(items, before + [Piece(items[last], lower)], lower, ignoreCase, at + [last])
      else KeptAt(items, before, lower, ignoreCase, at)
  {
    hide Piece, Cased;
    var front := items[..|items| - 1];
    forall p | 0 <= p < |front|
      ensures IsFirst(items, p, lower, ignoreCase) <==> IsFirst(front, p, lower, ignoreCase)
    {
      assert front[p] == items[p] && forall q :: 0 <= q < p ==> front[q] == items[q];
    }
  }

  lemma ReadingIs(items: seq<string>, out: seq<string>, lower: bool, ignoreCase: bool)
    ensures ReadsList(items, out, lower, ignoreCase) <==> out == Dedupe(Pieces(items, lower), ignoreCase)
  {
    hide ReadsList, Dedupe, Pieces;
    DedupeReads(items, lower, ignoreCase);
    if ReadsList(items, out, lower, ignoreCase) {
      ReadingIsUnique(items, out, Dedupe(Pieces(items, lower), ignoreCase), lower, ignoreCase);
    }
  }

  /** What every piece is, every kept one is, and the other way round where cases of
      one kind do not matter. */
  lemma PiecesAreKept(items: seq<string>, lower: bool, ignoreCase: bool, i: nat)
    requires i < |Pieces(items, lower)|
    ensures
      var kept := Dedupe(Pieces(items, lower), ignoreCase);
      exists j :: 0 <= j < |kept| && Fold(kept[j], ignoreCase) == Fold(Pieces(items, lower)[i], ignoreCase)
  {
    hide Pieces, Dedupe;
    DedupeLaws(Pieces(items, lower), ignoreCase);
    assert Known(Pieces(items, lower)[i], Dedupe(Pieces(items, lower), ignoreCase), ignoreCase);
  }

  lemma KeywordsIff(items: seq<string>, max: nat, out: seq<string>)
    ensures CleanKeywords(items, max) == Valid(out) <==>
      ReadsList(items, out, false, true) && |out| <= max && CleanList(out, true, 40)
  {
    hide ReadsList, Dedupe, Pieces, Known;
    ReadingIs(items, out, false, true);
    if CleanKeywords(items, max) == Valid(out) { KeywordsAreClean(items, max); }
    if out == Dedupe(Pieces(items, false), true) && CleanList(out, true, 40) {
      forall i | 0 <= i < |Pieces(items, false)| ensures |Pieces(items, false)[i]| <= MAX_KEYWORD_CHARS {
        PiecesAreKept(items, false, true, i);
        var j :| 0 <= j < |out| && Fold(out[j], true) == Fold(Pieces(items, false)[i], true);
        LowerAt(out[j]);
        LowerAt(Pieces(items, false)[i]);
      }
    }
  }

  lemma OptionsIff(items: seq<string>, out: seq<string>)
    ensures CleanOptions(items) == Valid(out) <==>
      ReadsList(items, out, false, false) && 2 <= |out| <= 12 && CleanList(out, false, 80)
  {
    hide ReadsList, Dedupe, Pieces, Known;
    ReadingIs(items, out, false, false);
    if CleanOptions(items) == Valid(out) { OptionsAreClean(items); }
  }

  /** Every item that is not blank names a kind of file. */
  ghost predicate OnlyKinds(items: seq<string>) {
    forall q :: 0 <= q < |items| && Strip(items[q]) != "" ==> KindNamed(Lower(Strip(items[q]))).Some?
  }

  /** The kinds named, first of each; every kind where none is. */
  ghost predicate ReadsAccept(items: seq<string>, out: seq<string>) {
    && OnlyKinds(items)
    && ((forall q :: 0 <= q < |items| ==> Strip(items[q]) == "") ==> out == ["image", "pdf", "doc", "ppt"])
    && ((exists q :: 0 <= q < |items| && Strip(items[q]) != "") ==> ReadsList(items, out, true, false))
  }

  lemma AcceptIff(items: seq<string>, out: seq<string>)
    ensures CleanAccept(items) == Valid(out) <==> ReadsAccept(items, out)
  {
    hide ReadsList, Dedupe, Pieces, Strip, Lower, KindNamed;
    ReadingIs(items, out, true, false);
    var pieces := Pieces(items, true);
    assert AllKinds(pieces) <==> OnlyKinds(items) by { KindsIff(items); }
    assert Dedupe(pieces, false) == [] <==> forall q :: 0 <= q < |items| ==> Strip(items[q]) == "" by {
      NothingKept(items);
    }
  }

  lemma KindsIff(items: seq<string>)
    ensures AllKinds(Pieces(items, true)) <==> OnlyKinds(items)
  {
    hide Pieces, Strip, Lower, KindNamed;
    var pieces := Pieces(items, true);
    if AllKinds(pieces) {
      forall q | 0 <= q < |items| && Strip(items[q]) != "" ensures KindNamed(Lower(Strip(items[q]))).Some? {
        var piece := Piece(items[q], true);
        LowerAt(Strip(items[q]));
        PiecesFrom(items, true, piece);
        var i :| 0 <= i < |pieces| && pieces[i] == piece;
        assert KindNamed(pieces[i]).Some?;
      }
    }
    if OnlyKinds(items) {
      forall i | 0 <= i < |pieces| ensures KindNamed(pieces[i]).Some? {
        PiecesFrom(items, true, pieces[i]);
        var q :| 0 <= q < |items| && Piece(items[q], true) == pieces[i] && pieces[i] != "";
        LowerAt(Strip(items[q]));
      }
    }
  }

  lemma NothingKept(items: seq<string>)
    ensures Dedupe(Pieces(items, true), false) == [] <==> forall q :: 0 <= q < |items| ==> Strip(items[q]) == ""
  {
    hide Pieces, Strip, Lower, Dedupe;
    var pieces := Pieces(items, true);
    DedupeLaws(pieces, false);
    if q :| 0 <= q < |items| && Strip(items[q]) != "" {
      LowerAt(Strip(items[q]));
      PiecesFrom(items, true, Piece(items[q], true));
      var i :| 0 <= i < |pieces| && pieces[i] == Piece(items[q], true);
      assert Known(pieces[i], Dedupe(pieces, false), false);
    }
    if Dedupe(pieces, false) != [] {
      var s := Dedupe(pieces, false)[0];
      assert s in pieces;
      PiecesFrom(items, true, s);
      var q :| 0 <= q < |items| && Piece(items[q], true) == s && s != "";
      LowerAt(Strip(items[q]));
    }
  }

  // --- steps --------------------------------------------------------------------------

  ghost predicate NoJunk<T>(f: Field<T>) { !f.Junk? }

  function ListOf(f: Field<seq<string>>): seq<string> { if f.Is? then f.value else [] }

  /** Key and question stripped, type and required flag as given, the optional texts
      stripped, options only for a choice, kinds only for a file. */
  ghost predicate ReadsStep(raw: RawStep, s: Step) {
    && raw.unknown == {} && ReadsText(raw.key, s.key) && ReadsText(raw.question, s.question)
    && raw.kind == Is(s.kind) && raw.required == Is(s.required)
    && ReadsOptional(raw.hint, s.hint) && ReadsOptional(raw.errorMessage, s.errorMessage)
    && NoJunk(raw.options) && NoJunk(raw.accept)
    && (if s.kind.ChoiceStep? then ReadsList(ListOf(raw.options), s.options, false, false) else s.options == [])
    && (if s.kind.FileStep? then ReadsAccept(ListOf(raw.accept), s.accept) else s.accept == [])
  }

  /** A step validates to `s` exactly when it reads as `s` and `s` is within the bounds. */
  lemma StepIff(raw: RawStep, s: Step)
    ensures ValidateStep(raw) == Valid(s) <==> ReadsStep(raw, s) && StepBounds(s)
  {
    hide CleanOptions, CleanAccept, ReadText, ReadOptional, ReadsText, ReadsOptional, ReadsList, ReadsAccept,
      KeyPattern;
    TextIff(raw.key, 40, s.key);
    TextIff(raw.question, 500, s.question);
    OptionalIff(raw.hint, 40, s.hint);
    OptionalIff(raw.errorMessage, 200, s.errorMessage);
    OptionsIff(ListOf(raw.options), s.options);
    AcceptIff(ListOf(raw.accept), s.accept);
    if ValidateStep(raw) == Valid(s) { StepIsWithin(raw); }
  }

  ghost predicate ReadsSteps(items: seq<RawItem>, steps: seq<Step>) {
    |items| == |steps| && forall i :: 0 <= i < |items| ==> items[i].Obj? && ReadsStep(items[i].step, steps[i])
  }

  /** Steps validate one by one, in their order. */
  lemma {:induction false} StepsIff(items: seq<RawItem>, steps: seq<Step>)
    ensures ValidateSteps(items) == Valid(steps) <==>
      ReadsSteps(items, steps) && forall i :: 0 <= i < |steps| ==> StepBounds(steps[i])
  {
    hide ValidateStep, ReadsStep, StepBounds;
    if items != [] {
      if steps != [] {
        StepsIff(items[1..], steps[1..]);
        if items[0].Obj? { StepIff(items[0].step, steps[0]); }
        assert steps == [steps[0]] + steps[1..];
        assert forall i :: 1 <= i < |items| ==> items[i] == items[1..][i - 1];
        assert forall i :: 1 <= i < |steps| ==> steps[i] == steps[1..][i - 1];
        if ReadsSteps(items, steps) && forall i :: 0 <= i < |steps| ==> StepBounds(steps[i]) {
          assert ReadsSteps(items[1..], steps[1..]);
        }
      }
    }
  }

  // --- flows --------------------------------------------------------------------------

  /** Label stripped, type as given, steps in order, the optional texts stripped; only
      a booking keeps its service name. */
  ghost predicate ReadsFlow(raw: RawFlow, f: Flow) {
    && raw.unknown == {} && ReadsText(raw.labelText, f.labelText) && raw.flowType == Is(f.flowType)
    && ((raw.steps.Absent? && f.steps == []) || (raw.steps.Is? && ReadsSteps(raw.steps.value, f.steps)))
    && Readable(raw.serviceName, 80)
    && (if f.flowType.Booking? then ReadsOptional(raw.serviceName, f.serviceName) else f.serviceName.None?)
    && ReadsOptional(raw.message, f.message)
  }

  lemma FlowIff(raw: RawFlow, f: Flow)
    ensures ValidateFlow(raw) == Valid(f) <==> ReadsFlow(raw, f) && FlowBounds(f)
  {
    hide ValidateSteps, ReadText, ReadOptional, ReadsText, ReadsOptional, ReadsSteps, StepBounds, Readable;
    TextIff(raw.labelText, 80, f.labelText);
    OptionalIff(raw.message, 1000, f.message);
    OptionalIff(raw.serviceName, 80, f.serviceName);
    if raw.steps.Is? {
      StepsIff(raw.steps.value, f.steps);
      SameNumber(raw.steps.value, f.steps);
    }
    if ValidateFlow(raw) == Valid(f) { FlowIsWithin(raw); }
  }

  lemma SameNumber(items: seq<RawItem>, steps: seq<Step>)
    ensures ReadsSteps(items, steps) ==> |items| == |steps|
  {
    hide ReadsStep;
  }

  ghost predicate ReadsFlows(raw: Dict<RawFlow>, flows: Dict<Flow>) {
    |raw| == |flows| && forall i :: 0 <= i < |raw| ==> raw[i].0 == flows[i].0 && ReadsFlow(raw[i].1, flows[i].1)
  }

  /** Flows validate one by one, under their names and in their order. */
  lemma {:induction false} FlowsIff(raw: Dict<RawFlow>, flows: Dict<Flow>)
    ensures ValidateFlows(raw) == Valid(flows) <==>
      ReadsFlows(raw, flows) && forall i :: 0 <= i < |flows| ==> FlowBounds(flows[i].1)
  {
    hide ValidateFlow, ReadsFlow, FlowBounds;
    if raw != [] {
      if flows != [] {
        FlowsIff(raw[1..], flows[1..]);
        FlowIff(raw[0].1, flows[0].1);
        assert flows == [flows[0]] + flows[1..] && flows[0] == (flows[0].0, flows[0].1);
        assert forall i :: 1 <= i < |raw| ==> raw[i] == raw[1..][i - 1];
        assert forall i :: 1 <= i < |flows| ==> flows[i] == flows[1..][i - 1];
        if ReadsFlows(raw, flows) && forall i :: 0 <= i < |flows| ==> FlowBounds(flows[i].1) {
          assert ReadsFlows(raw[1..], flows[1..]);
        }
      }
    }
  }

  // --- the whole configuration -----------------------------------------------------------

  ghost predicate ReadsProfile(raw: RawProfile, p: Profile) {
    && raw.unknown == {} && ReadsText(raw.name, p.name) && ReadsText(raw.systemPrompt, p.systemPrompt)
    && ReadsDefaulted(raw.tone, p.tone) && ReadsDefaulted(raw.greeting, p.greeting)
    && ReadsDefaulted(raw.escalationMessage, p.escalationMessage)
    && ((raw.language.Absent? && p.language == Hebrew) || raw.language == Is(p.language))
    && ((raw.autoCloseMinutes.Absent? && p.autoCloseMinutes == 60) || raw.autoCloseMinutes == Is(p.autoCloseMinutes))
    && ((raw.menuKeywords.Absent? && p.menuKeywords == []) ||
        (raw.menuKeywords.Is? && ReadsList(raw.menuKeywords.value, p.menuKeywords, false, true)))
  }

  lemma ProfileIff(raw: RawProfile, p: Profile)
    ensures ValidateProfile(raw) == Valid(p) <==> ReadsProfile(raw, p) && ProfileBounds(p)
  {
    hide ReadText, ReadDefaulted, ReadsText, ReadsDefaulted, CleanKeywords, CleanList, ReadsList;
    TextIff(raw.name, 80, p.name);
    TextIff(raw.systemPrompt, 4000, p.systemPrompt);
    DefaultedIff(raw.tone, 120, p.tone);
    DefaultedIff(raw.greeting, 1000, p.greeting);
    DefaultedIff(raw.escalationMessage, 1000, p.escalationMessage);
    if raw.menuKeywords.Is? { KeywordsIff(raw.menuKeywords.value, 20, p.menuKeywords); }
    NoWords();
  }

  lemma NoWords()
    ensures CleanList([], true, 40)
  {
  }

  /** The four words a configuration that names none gets: the last two, "human" and
      "agent", and two in Hebrew. */
  ghost predicate ReadsHandoff(raw: Field<seq<string>>, words: seq<string>) {
    (raw.Absent? && words == DEFAULT_HANDOFF_KEYWORDS) || (raw.Is? && ReadsList(raw.value, words, false, true))
  }

  ghost predicate ReadsSettings(raw: RawSettings, cfg: Settings) {
    && ReadsFlows(raw.flows, cfg.flows) && ReadsProfile(raw.profile, cfg.profile)
    && ReadsHandoff(raw.handoffKeywords, cfg.handoffKeywords) && cfg.published == raw.published
  }

  /** A raw configuration validates to `cfg` exactly when it reads as `cfg`, field by
      field, and `cfg` is within the bounds; it is refused otherwise. */
  lemma ValidatesExactlyWhen(raw: RawSettings, cfg: Settings)
    ensures Validate(raw) == Valid(cfg) <==> ReadsSettings(raw, cfg) && SettingsBounds(cfg)
  {
    hide ValidateFlows, ValidateProfile, CleanKeywords, ReadsFlow, ReadsProfile, ReadsList, ProfileBounds, FlowBounds,
      CleanList, KeyPattern;
    FlowsIff(raw.flows, cfg.flows);
    ProfileIff(raw.profile, cfg.profile);
    if raw.handoffKeywords.Is? { KeywordsIff(raw.handoffKeywords.value, 30, cfg.handoffKeywords); }
    DefaultKeywordsAreClean();
    if ReadsFlows(raw.flows, cfg.flows) {
      assert forall i :: 0 <= i < |cfg.flows| ==> raw.flows[i].0 == cfg.flows[i].0;
    }
  }

  /** The key alphabet: lower-case letters, digits, the underscore, the space, and
      the Hebrew block. */
  lemma KeyAlphabet(c: char)
    ensures KeyChar(c) <==>
      (97 <= c as int <= 122) || (48 <= c as int <= 57) || c == '_' || c == ' ' || (0x590 <= c as int <= 0x5FF)
    ensures forall s: string :: KeyPattern(s) <==> 1 <= |s| <= 40 && forall i :: 0 <= i < |s| ==> KeyChar(s[i])
  {
    hide KeyChar;
    assert KeyChar(c) <==>
      (97 <= c as int <= 122) || (48 <= c as int <= 57) || c == '_' || c == ' ' || (0x590 <= c as int <= 0x5FF) by {
      Alphabet(c);
    }
  }

  lemma Alphabet(c: char)
    ensures KeyChar(c) <==>
      (97 <= c as int <= 122) || (48 <= c as int <= 57) || c == '_' || c == ' ' || (0x590 <= c as int <= 0x5FF)
  {
  }

  lemma DefaultWordsAre()
    ensures |DEFAULT_HANDOFF_KEYWORDS| == 4
    ensures DEFAULT_HANDOFF_KEYWORDS[2] == "human" && DEFAULT_HANDOFF_KEYWORDS[3] == "agent"
    ensures DEFAULT_HANDOFF_KEYWORDS[0] == "\U{05E0}\U{05E6}\U{05D9}\U{05D2}"
    ensures DEFAULT_HANDOFF_KEYWORDS[1] == "\U{05D0}\U{05D3}\U{05DD}"
  {
  }
}
