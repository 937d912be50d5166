/** The list-cleaning loops and the model-level validators, which rewrite the
    freshly built model object in place. */
module ConfigModels {
  import opened Wrappers
  import opened BotModel
  import opened Text
  import opened BotConfig

  /** The stripped, non-blank items, first occurrence each ignoring case. */
  method CleanKeywordList(value: seq<string>, maxItems: nat) returns (r: Checked<seq<string>>)
    ensures r == CleanKeywords(value, maxItems)
  {
    hide Pieces, Dedupe, Strip;
    NothingCleaned(value, false, true);
    var cleaned: seq<string> := [];
    var seenLower: set<string> := {};
    for i := 0 to |value|
      invariant cleaned == Dedupe(Pieces(value[..i], false), true)
      invariant AllWithin(Pieces(value[..i], false), MAX_KEYWORD_CHARS)
      invariant seenLower == Lowered(cleaned)
    {
      var item := Strip(value[i]);
      ItemGrows(value, i, false, true);
      if item != "" {
        assert Fold(item, false) == item;
        if |item| > MAX_KEYWORD_CHARS {
          PiecesAreFirst(value, i + 1, false);
          assert Last(Pieces(value[..i + 1], false)) == item;
          return Invalid;
        }
        var low := Lower(item);
        LoweredKnows(cleaned, item);
        if low !in seenLower {
          seenLower := seenLower + {low};
          assert (cleaned + [item])[..|cleaned|] == cleaned;
          cleaned := cleaned + [item];
        }
      }
    }
    assert value[..|value|] == value;
    r := if |cleaned| > maxItems then Invalid else Valid(cleaned);
  }

  function Lowered(items: seq<string>): set<string> {
    if items == [] then {} else Lowered(items[..|items| - 1]) + {Lower(items[|items| - 1])}
  }

  lemma {:induction false} LoweredKnows(items: seq<string>, s: string)
    ensures Lower(s) in Lowered(items) <==> Known(s, items, true)
  {
    if items != [] {
      var front := items[..|items| - 1];
      LoweredKnows(front, s);
      if Known(s, front, true) {
        var i :| 0 <= i < |front| && Fold(front[i], true) == Fold(s, true);
        assert items[i] == front[i];
      }
      if i :| 0 <= i < |front| && Fold(items[i], true) == Fold(s, true) {
        assert front[i] == items[i];
      }
    }
  }

  method CleanChoiceOptions(options: seq<string>) returns (r: Checked<seq<string>>)
    ensures r == CleanOptions(options)
  {
    hide Pieces, Dedupe, Strip;
    NothingCleaned(options, false, false);
    var seen: seq<string> := [];
    for i := 0 to |options|
      invariant seen == Dedupe(Pieces(options[..i], false), false)
    {
      ItemGrows(options, i, false, false);
      var o := Strip(options[i]);
      KnownIsIn(o, seen);
      if o != "" && o !in seen { seen := seen + [o]; }
    }
    assert options[..|options|] == options;
    if !(2 <= |seen| <= MAX_CHOICE_OPTIONS) { return Invalid; }
    for i := 0 to |seen|
      invariant AllWithin(seen[..i], MAX_OPTION_CHARS)
    {
      if |seen[i]| > MAX_OPTION_CHARS { return Invalid; }
    }
    assert seen[..|seen|] == seen;
    r := Valid(seen);
  }

  method CleanFileKinds(accept: seq<string>) returns (r: Checked<seq<string>>)
    ensures r == CleanAccept(accept)
  {
    hide KindNamed, Pieces, Dedupe, Strip;
    NothingCleaned(accept, true, false);
    var kinds: seq<string> := [];
    for i := 0 to |accept|
      invariant kinds == Dedupe(Pieces(accept[..i], true), false)
      invariant AllKinds(Pieces(accept[..i], true))
    {
      ItemGrows(accept, i, true, false);
      var name := Lower(Strip(accept[i]));
      if name != "" {
        if KindNamed(name).None? {
          PiecesAreFirst(accept, i + 1, true);
          assert Last(Pieces(accept[..i + 1], true)) == name;
          return Invalid;
        }
        KnownIsIn(name, kinds);
        if name !in kinds { kinds := kinds + [name]; }
      }
    }
    assert accept[..|accept|] == accept;
    r := Valid(if kinds == [] then FILE_ACCEPT_KINDS else kinds);
  }

  /** What one more item adds to the pieces and to what is kept of them. */
  lemma ItemGrows(items: seq<string>, i: nat, lower: bool, ignoreCase: bool)
    requires i < |items|
    ensures
      var piece := Fold(Strip(items[i]), lower);
      var kept := Dedupe(Pieces(items[..i], lower), ignoreCase);
      && Pieces(items[..i + 1], lower) == Pieces(items[..i], lower) + (if piece == "" then [] else [piece])
      && Dedupe(Pieces(items[..i + 1], lower), ignoreCase)
         == (if piece == "" || Known(piece, kept, ignoreCase) then kept else kept + [piece])
  {
    var piece := Fold(Strip(items[i]), lower);
    var before := Pieces(items[..i], lower);
    PiecesGrow(items, i, lower);
    assert (before + [piece])[..|before|] == before;
    assert before + [] == before;
  }

  lemma NothingCleaned(items: seq<string>, lower: bool, ignoreCase: bool)
    ensures Pieces(items[..0], lower) == [] && Dedupe([], ignoreCase) == []
  {
  }

  /** Whether an item is known is a matter of membership when case counts. */
  lemma KnownIsIn(s: string, kept: seq<string>)
    ensures Known(s, kept, false) <==> s in kept
  {
  }

  function Last(items: seq<string>): string
    requires items != []
  {
    items[|items| - 1]
  }

  lemma PiecesGrow(items: seq<string>, i: nat, lower: bool)
    requires i < |items|
    ensures var piece := Fold(Strip(items[i]), lower);
      Pieces(items[..i + 1], lower) == Pieces(items[..i], lower) + (if piece == "" then [] else [piece])
  {
    assert items[..i + 1][..i] == items[..i];
  }

  /** The pieces found so far are the first pieces of the whole list. */
  lemma PiecesAreFirst(items: seq<string>, i: nat, lower: bool)
    requires i <= |items|
    ensures Pieces(items[..i], lower) <= Pieces(items, lower)
    decreases |items| - i
  {
    if i == |items| {
      assert items[..i] == items;
    } else {
      PiecesGrow(items, i, lower);
      PiecesAreFirst(items, i + 1, lower);
    }
  }

  /** A step after its fields were read, about to be checked as a whole. */
  class StepModel {
    const kind: StepType
    var options: seq<string>
    var accept: seq<string>

    constructor (kind: StepType, options: seq<string>, accept: seq<string>)
      ensures this.kind == kind && this.options == options && this.accept == accept
    {
      this.kind, this.options, this.accept := kind, options, accept;
    }

    /** Refuses the step, or leaves exactly the lists the step type may carry. */
    method EnforceOptionsRule() returns (ok: bool)
      modifies this
      ensures forall s: Step :: s.kind == kind && s.options == old(options) && s.accept == old(accept) ==>
        StepRule(s) == if ok then Valid(s.(options := options, accept := accept)) else Invalid
    {
      if kind.ChoiceStep? {
        var cleaned := CleanChoiceOptions(options);
        if cleaned.Invalid? { return false; }
        options := cleaned.value;
      } else {
        options := [];
      }
      if kind.FileStep? {
        var cleaned := CleanFileKinds(accept);
        if cleaned.Invalid? { return false; }
        accept := cleaned.value;
      } else {
        accept := [];
      }
      ok := true;
    }
  }

  /** A flow after its fields were read, about to be checked as a whole. */
  class FlowModel {
    const flowType: FlowType
    const steps: seq<Step>
    var serviceName: Option<string>

    constructor (flowType: FlowType, steps: seq<Step>, serviceName: Option<string>)
      ensures this.flowType == flowType && this.steps == steps && this.serviceName == serviceName
    {
      this.flowType, this.steps, this.serviceName := flowType, steps, serviceName;
    }

    /** Refuses the flow, or drops the service name of a flow that cannot have one. */
    method EnforceFlowRules() returns (ok: bool)
      modifies this
      ensures forall f: Flow :: f.flowType == flowType && f.steps == steps && f.serviceName == old(serviceName) ==>
        FlowRule(f) == if ok then Valid(f.(serviceName := serviceName)) else Invalid
    {
      if flowType.HumanHandoff? {
        if steps != [] { return false; }
      } else if flowType.Lead? {
        if |steps| < 1 { return false; }
      }
      if !flowType.Booking? { serviceName := None; }
      ok := |KeySet(steps)| == |steps|;
      CountsDistinctKeys(steps);
    }
  }

  function KeySet(steps: seq<Step>): set<string> {
    if steps == [] then {} else KeySet(steps[..|steps| - 1]) + {steps[|steps| - 1].key}
  }

  lemma {:induction false} KeySetHas(steps: seq<Step>, key: string)
    ensures key in KeySet(steps) <==> exists i :: 0 <= i < |steps| && steps[i].key == key
  {
    if steps != [] {
      var front := steps[..|steps| - 1];
      KeySetHas(front, key);
      if key in KeySet(front) {
        var i :| 0 <= i < |front| && front[i].key == key;
        assert steps[i].key == key;
      }
      if i :| 0 <= i < |front| && steps[i].key == key {
        assert front[i].key == key;
      }
    }
  }

  /** Keys are distinct exactly when their set is as large as the list. */
  lemma {:induction false} CountsDistinctKeys(steps: seq<Step>)
    ensures |KeySet(steps)| <= |steps|
    ensures |KeySet(steps)| == |steps| <==> DistinctKeys(steps)
  {
    if steps != [] {
      var (front, last) := (steps[..|steps| - 1], steps[|steps| - 1]);
      CountsDistinctKeys(front);
      KeySetHas(front, last.key);
      if last.key in KeySet(front) {
        assert KeySet(steps) == KeySet(front);
        var i :| 0 <= i < |front| && front[i].key == last.key;
        assert steps[i].key == steps[|steps| - 1].key;
      } else {
        assert DistinctKeys(steps) <==> DistinctKeys(front) by {
          if DistinctKeys(front) {
            forall i, j | 0 <= i < j < |steps| ensures steps[i].key != steps[j].key {
              assert steps[i] == front[i];
              assert j < |front| ==> steps[j] == front[j];
            }
          }
          if DistinctKeys(steps) {
            forall i, j | 0 <= i < j < |front| ensures front[i].key != front[j].key {
              assert steps[i] == front[i] && steps[j] == front[j];
            }
          }
        }
      }
    }
  }
}
