/** Merging an untrusted change object into the current configuration: normalise,
    merge, validate, and on a full rebuild salvage
    (backend/app/services/bot_builder_ai.py). */
module BotBuilder {
  import opened Wrappers
  import opened BotModel
  import opened OrderedDict
  import opened Text
  import opened BotConfig

  const MAX_SLUG: nat := 40
  const EDGES: set<char> := {'_', ' '}

  /** The profile texts a rebuild falls back to. */
  datatype Boilerplate = Boilerplate(name: string, promptBefore: string, promptAfter: string)

  /** One value of the incoming `lead_steps` object. */
  datatype RawEntry = NoFlow | FlowObj(flow: RawFlow)

  /** The change object; an entry that is not of the expected JSON type is absent. */
  datatype Changes = Changes(
    deleteAll: bool,
    replaceAll: bool,
    profile: Option<RawProfile>,
    flows: Option<Dict<RawEntry>>,
    deleteFlows: seq<string>,
    handoffKeywords: Field<seq<string>>,
    published: Option<bool>)

  predicate FullReset(ch: Changes) { ch.deleteAll || ch.replaceAll }

  // --- keys ---------------------------------------------------------------------

  function Underscored(s: string): string {
    if s == "" then "" else [if KeyChar(s[0]) then s[0] else '_'] + Underscored(s[1..])
  }

  /** Runs of underscores become one. */
  function Collapse(s: string): string {
    if s == "" then ""
    else if |s| >= 2 && s[0] == '_' && s[1] == '_' then Collapse(s[1..])
    else [s[0]] + Collapse(s[1..])
  }

  /** The key before it is cut to length. */
  function SlugBody(name: string): string {
    Trim(Collapse(Underscored(Lower(Strip(name)))), EDGES)
  }

  function SlugifyKey(name: string): string {
    var body := SlugBody(name);
    if body == "" then "flow" else if |body| > MAX_SLUG then body[..MAX_SLUG] else body
  }

  // --- unique names -----------------------------------------------------------------

  function Suffixed(slug: string, i: nat): string { slug + "_" + Decimal(i) }

  /** Every suffix from 2 up to, but not including, i is taken. */
  ghost predicate TakenBelow(slug: string, seen: set<string>, i: nat) {
    forall j :: 2 <= j < i ==> Suffixed(slug, j) in seen
  }

  lemma SuffixedIsInjective(slug: string, i: nat, j: nat)
    requires Suffixed(slug, i) == Suffixed(slug, j)
    ensures i == j
  {
    assert Suffixed(slug, i)[|slug| + 1..] == Decimal(i);
    assert Suffixed(slug, j)[|slug| + 1..] == Decimal(j);
    DecimalInjective(i, j);
  }

  /** Distinct suffixes against a finite set: the search cannot go on for ever. */
  lemma {:induction false} TakenIsBounded(slug: string, seen: set<string>, i: nat)
    requires i >= 2 && TakenBelow(slug, seen, i)
    ensures i - 2 <= |seen|
    decreases i
  {
    if i > 2 {
      var last := Suffixed(slug, i - 1);
      var rest := seen - {last};
      forall j | 2 <= j < i - 1 ensures Suffixed(slug, j) in rest {
        if Suffixed(slug, j) == last { SuffixedIsInjective(slug, j, i - 1); }
      }
      TakenIsBounded(slug, rest, i - 1);
    }
  }

  /** The first free suffix from i on. */
  function FreeIndex(slug: string, seen: set<string>, i: nat): (k: nat)
    requires i >= 2 && TakenBelow(slug, seen, i)
    ensures k >= 2 && Suffixed(slug, k) !in seen && TakenBelow(slug, seen, k)
    decreases (TakenIsBounded(slug, seen, i); |seen| + 2 - i)
  {
    if Suffixed(slug, i) in seen then
      TakenIsBounded(slug, seen, i + 1);
      FreeIndex(slug, seen, i + 1)
    else i
  }

  /** The slug itself, or the slug with the first free suffix. */
  function FreshName(slug: string, seen: set<string>): string {
    if slug in seen then Suffixed(slug, FreeIndex(slug, seen, 2)) else slug
  }

  method UniqueName(slug: string, seen: set<string>) returns (name: string)
    ensures name == FreshName(slug, seen)
    ensures name !in seen
  {
    name := slug;
    if slug in seen {
      var i := 2;
      while Suffixed(slug, i) in seen
        invariant i >= 2 && TakenBelow(slug, seen, i)
        invariant FreeIndex(slug, seen, i) == FreeIndex(slug, seen, 2)
        decreases |seen| + 2 - i
      {
        TakenIsBounded(slug, seen, i + 1);
        i := i + 1;
      }
      name := Suffixed(slug, i);
    }
  }

  // --- normalising steps and flows ------------------------------------------------------

  /** A list under construction and the keys handed out so far. */
  datatype Building<T> = Building(out: seq<T>, seen: set<string>)

  predicate HasUsableKey(step: RawStep) {
    step.key.Is? && Strip(step.key.value) != ""
  }

  function AddStep(b: Building<RawStep>, item: RawItem): Building<RawStep> {
    match item
    case NotAnObject => b
    case Obj(step) =>
      var clean := step.(unknown := {});
      if HasUsableKey(step) then
        var name := FreshName(SlugifyKey(step.key.value), b.seen);
        Building(b.out + [clean.(key := Is(name))], b.seen + {name})
      else Building(b.out + [clean], b.seen)
  }

  function BuildSteps(items: seq<RawItem>): Building<RawStep> {
    if items == [] then Building([], {})
    else AddStep(BuildSteps(items[..|items| - 1]), items[|items| - 1])
  }

  function AsItems(steps: seq<RawStep>): seq<RawItem> {
    if steps == [] then [] else AsItems(steps[..|steps| - 1]) + [Obj(steps[|steps| - 1])]
  }

  /** Unknown fields and the customer message, which the builder may not set, go. */
  function CleanFlow(flow: RawFlow): RawFlow {
    flow.(unknown := {}, message := Absent,
          steps := if flow.steps.Is? then Is(AsItems(BuildSteps(flow.steps.value).out)) else flow.steps)
  }

  function AddFlow(b: Building<(string, RawFlow)>, name: string, entry: RawEntry): Building<(string, RawFlow)> {
    match entry
    case NoFlow => b
    case FlowObj(flow) =>
      var unique := FreshName(SlugifyKey(name), b.seen);
      Building(b.out + [(unique, CleanFlow(flow))], b.seen + {unique})
  }

  function BuildFlows(flows: Dict<RawEntry>): Building<(string, RawFlow)> {
    if flows == [] then Building([], {})
    else AddFlow(BuildFlows(flows[..|flows| - 1]), flows[|flows| - 1].0, flows[|flows| - 1].1)
  }

  method NormalizeSteps(items: seq<RawItem>) returns (out: seq<RawStep>)
    ensures out == BuildSteps(items).out
  {
    out := [];
    var seen: set<string> := {};
    for n := 0 to |items|
      invariant Building(out, seen) == BuildSteps(items[..n])
    {
      assert items[..n + 1][..n] == items[..n];
      if items[n].Obj? {
        var clean := items[n].step.(unknown := {});
        if HasUsableKey(items[n].step) {
          var slug := UniqueName(SlugifyKey(items[n].step.key.value), seen);
          clean := clean.(key := Is(slug));
          seen := seen + {slug};
        }
        out := out + [clean];
      }
    }
    assert items[..|items|] == items;
  }

  method NormalizeFlows(flows: Dict<RawEntry>) returns (cleaned: Dict<RawFlow>)
    ensures cleaned == BuildFlows(flows).out
  {
    cleaned := [];
    ghost var seen: set<string> := {};
    for n := 0 to |flows|
      invariant Building(cleaned, seen) == BuildFlows(flows[..n])
      invariant seen == Keys(cleaned) && Unique(cleaned)
    {
      assert flows[..n + 1][..n] == flows[..n];
      if flows[n].1.FlowObj? {
        var name := UniqueName(SlugifyKey(flows[n].0), Keys(cleaned));
        var flow := flows[n].1.flow;
        var steps := flow.steps;
        if flow.steps.Is? {
          var normalized := NormalizeSteps(flow.steps.value);
          steps := Is(AsItems(normalized));
        }
        PutLaws(cleaned, name, CleanFlow(flow), name);
        cleaned := Put(cleaned, name, flow.(unknown := {}, message := Absent, steps := steps));
        seen := seen + {name};
      }
    }
    assert flows[..|flows|] == flows;
  }

  // --- salvage ------------------------------------------------------------------------------

  /** The entries whose flow validates on its own, in order. */
  function Salvaged(flows: Dict<RawFlow>): Dict<RawFlow> {
    if flows == [] then []
    else
      Salvaged(flows[..|flows| - 1]) +
      (if ValidateFlow(flows[|flows| - 1].1).Valid? then [flows[|flows| - 1]] else [])
  }

  method SalvageFlows(flows: Dict<RawFlow>) returns (good: Dict<RawFlow>)
    ensures good == Salvaged(flows)
  {
    good := [];
    for n := 0 to |flows|
      invariant good == Salvaged(flows[..n])
    {
      assert flows[..n + 1][..n] == flows[..n];
      if ValidateFlow(flows[n].1).Valid? {
        good := good + [flows[n]];
      }
    }
    assert flows[..|flows|] == flows;
  }

  // --- the merge ------------------------------------------------------------------------------

  function Override<T>(current: Field<T>, incoming: Field<T>): Field<T> {
    if incoming.Absent? then current else incoming
  }

  /** Shallow field merge; unknown incoming fields are dropped. */
  function MergeProfile(current: RawProfile, incoming: RawProfile): RawProfile {
    RawProfile(
      Override(current.name, incoming.name),
      Override(current.systemPrompt, incoming.systemPrompt),
      Override(current.tone, incoming.tone),
      Override(current.language, incoming.language),
      Override(current.greeting, incoming.greeting),
      Override(current.escalationMessage, incoming.escalationMessage),
      Override(current.autoCloseMinutes, incoming.autoCloseMinutes),
      Override(current.menuKeywords, incoming.menuKeywords),
      current.unknown)
  }

  predicate BlankField(f: Field<string>) {
    f.Absent? || f.Null? || (f.Is? && Strip(f.value) == "")
  }

  function FillProfile(b: Boilerplate, p: RawProfile): RawProfile {
    var named := if BlankField(p.name) then p.(name := Is(b.name)) else p;
    if BlankField(p.systemPrompt) && named.name.Is?
    then named.(systemPrompt := Is(b.promptBefore + named.name.value + b.promptAfter))
    else named
  }

  /** What the flows are before validation. */
  function MergedFlows(current: Dict<RawFlow>, ch: Changes): Dict<RawFlow> {
    var incoming := BuildFlows(ch.flows.GetOr([])).out;
    DropAll(if FullReset(ch) then incoming else PutAll(current, incoming), ch.deleteFlows)
  }

  function MergedProfile(b: Boilerplate, current: RawProfile, ch: Changes): RawProfile {
    var merged := if ch.profile.Some? then MergeProfile(current, ch.profile.value) else current;
    if FullReset(ch) then FillProfile(b, merged) else merged
  }

  /** `list(current.get("handoff_keywords") or [])`: a working copy that names no
      keywords has none; the defaults of a validated configuration do not apply. */
  function OwnKeywords(current: Field<seq<string>>): Field<seq<string>> {
    if current.Absent? || current.Null? then Is([]) else current
  }

  function Merged(b: Boilerplate, current: RawSettings, ch: Changes): RawSettings {
    RawSettings(
      MergedFlows(current.flows, ch),
      MergedProfile(b, current.profile, ch),
      if ch.handoffKeywords.Absent? || ch.handoffKeywords.Null? then OwnKeywords(current.handoffKeywords)
      else ch.handoffKeywords,
      ch.published.GetOr(current.published))
  }

  /** The gate: validate, and only on a full rebuild retry without the flows that
      do not validate. */
  function Gate(merged: RawSettings, fullReset: bool): Checked<Settings> {
    var first := Validate(merged);
    if first.Valid? || !fullReset then first
    else Validate(merged.(flows := Salvaged(merged.flows)))
  }

  /** What applying a change to a working copy yields. */
  function Changed(b: Boilerplate, current: RawSettings, ch: Changes): Checked<Settings> {
    Gate(Merged(b, current, ch), FullReset(ch))
  }

  method MergeChanges(b: Boilerplate, current: RawSettings, ch: Changes) returns (r: Checked<Settings>)
    ensures r == Changed(b, current, ch)
  {
    var merged := current.(handoffKeywords := OwnKeywords(current.handoffKeywords));
    var fullReset := ch.deleteAll || ch.replaceAll;
    if ch.profile.Some? {
      merged := merged.(profile := MergeProfile(merged.profile, ch.profile.value));
    }
    if fullReset {
      var flows := NormalizeFlows(ch.flows.GetOr([]));
      merged := merged.(flows := flows);
    } else if ch.flows.Some? {
      var flows := NormalizeFlows(ch.flows.value);
      merged := merged.(flows := PutAll(merged.flows, flows));
    }
    ghost var before := merged.flows;
    for n := 0 to |ch.deleteFlows|
      invariant DropAll(merged.flows, ch.deleteFlows[n..]) == DropAll(before, ch.deleteFlows)
      invariant merged == RawSettings(
        merged.flows,
        if ch.profile.Some? then MergeProfile(current.profile, ch.profile.value) else current.profile,
        OwnKeywords(current.handoffKeywords),
        current.published)
    {
      assert ch.deleteFlows[n..][1..] == ch.deleteFlows[n + 1..];
      merged := merged.(flows := Drop(merged.flows, ch.deleteFlows[n]));
    }
    if !ch.handoffKeywords.Absent? && !ch.handoffKeywords.Null? {
      merged := merged.(handoffKeywords := ch.handoffKeywords);
    }
    if ch.published.Some? {
      merged := merged.(published := ch.published.value);
    }
    if fullReset {
      merged := merged.(profile := FillProfile(b, merged.profile));
    }
    assert merged == Merged(b, current, ch);
    r := Validate(merged);
    if r.Invalid? && fullReset {
      var good := SalvageFlows(merged.flows);
      r := Validate(merged.(flows := good));
    }
  }
}
