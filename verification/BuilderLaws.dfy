/** What the untrusted merge guarantees. */
module BuilderLaws {
  import opened Wrappers
  import opened BotModel
  import opened OrderedDict
  import opened Text
  import opened BotConfig
  import opened ConfigLaws
  import opened BotBuilder

  // --- keys -----------------------------------------------------------------------

  ghost predicate AllKeyChars(s: string) { forall i :: 0 <= i < |s| ==> KeyChar(s[i]) }

  ghost predicate NoDoubles(s: string) { forall i :: 0 <= i < |s| - 1 ==> !(s[i] == '_' && s[i + 1] == '_') }

  lemma {:induction false} UnderscoredAt(s: string)
    ensures |Underscored(s)| == |s| && AllKeyChars(Underscored(s))
    ensures AllKeyChars(s) ==> Underscored(s) == s
  {
    if s != "" { UnderscoredAt(s[1..]); }
  }

  lemma {:induction false} CollapseLaws(s: string)
    ensures NoDoubles(Collapse(s)) && |Collapse(s)| <= |s|
    ensures s != "" ==> Collapse(s) != "" && Collapse(s)[0] == s[0]
    ensures AllKeyChars(s) ==> AllKeyChars(Collapse(s))
    ensures NoDoubles(s) ==> Collapse(s) == s
  {
    if s != "" {
      CollapseLaws(s[1..]);
      if NoDoubles(s) {
        assert NoDoubles(s[1..]) by {
          forall i | 0 <= i < |s[1..]| - 1 ensures !(s[1..][i] == '_' && s[1..][i + 1] == '_') {
            assert s[1..][i] == s[i + 1] && s[1..][i + 1] == s[i + 2];
          }
        }
      }
    }
  }

  /** The uncut key: allowed characters, no double underscore, no underscore or
      space at either end. */
  lemma SlugBodyLaws(name: string)
    ensures AllKeyChars(SlugBody(name)) && NoDoubles(SlugBody(name)) && Trimmed(SlugBody(name), EDGES)
    ensures |SlugBody(name)| <= |name|
  {
    hide Strip, Lower, Underscored, Collapse, Trim, KeyChar;
    StripIsStripped(name);
    LowerAt(Strip(name));
    var u := Underscored(Lower(Strip(name)));
    UnderscoredAt(Lower(Strip(name)));
    CollapseLaws(u);
    var i, j := TrimIsSlice(Collapse(u), EDGES);
  }

  /** A key is never empty, never longer than 40 and always in the allowed alphabet. */
  lemma SlugIsKey(name: string)
    ensures KeyPattern(SlugifyKey(name))
    ensures SlugifyKey(name)[0] !in EDGES
    ensures NoDoubles(SlugifyKey(name))
  {
    SlugBodyLaws(name);
  }

  /** A clean text is its own uncut key. */
  lemma CleanBody(s: string)
    requires s != "" && AllKeyChars(s) && NoDoubles(s) && Trimmed(s, EDGES)
    ensures SlugBody(s) == s
  {
    TrimmedIsFixed(s, SPACES);
    LowerAt(s);
    assert Lower(s) == s;
    UnderscoredAt(s);
    CollapseLaws(s);
    TrimmedIsFixed(s, EDGES);
  }

  /** Making a key of a key changes nothing exactly when cutting to 40 characters
      did not leave an underscore or a space at the end. */
  lemma SlugIsStable(name: string)
    ensures var slug := SlugifyKey(name);
      SlugifyKey(slug) == slug <==> slug[|slug| - 1] !in EDGES
  {
    var slug := SlugifyKey(name);
    SlugIsKey(name);
    if slug[|slug| - 1] !in EDGES {
      CleanBody(slug);
    } else {
      SlugBodyLaws(slug);
      assert SlugifyKey(slug)[|SlugifyKey(slug)| - 1] !in EDGES;
    }
  }

  /** Making a key twice always settles. */
  lemma SlugSettles(name: string)
    ensures var twice := SlugifyKey(SlugifyKey(name)); SlugifyKey(twice) == twice
  {
    var slug := SlugifyKey(name);
    SlugIsKey(name);
    SlugBodyLaws(slug);
    SlugIsStable(slug);
  }

  /** 39 letters, an underscore and one more letter: cut after the underscore. */
  lemma CutKeyIsUnstable(name: string)
    requires |name| == 41 && name[39] == '_' && forall i :: 0 <= i < 41 && i != 39 ==> name[i] == 'a'
    ensures SlugifyKey(name) == name[..40] && SlugifyKey(SlugifyKey(name)) != SlugifyKey(name)
  {
    CleanBody(name);
    SlugIsStable(name);
  }

  // --- unique names --------------------------------------------------------------------

  /** A key handed out is new and in the alphabet; it is the plain key whenever
      that one is free. */
  lemma FreshNameLaws(name: string, seen: set<string>)
    ensures var slug := FreshName(SlugifyKey(name), seen);
      && slug !in seen && slug != "" && AllKeyChars(slug)
      && (SlugifyKey(name) !in seen ==> slug == SlugifyKey(name))
  {
    SlugIsKey(name);
    var slug := SlugifyKey(name);
    if slug in seen {
      var k := FreeIndex(slug, seen, 2);
      ParseDecimal(k);
      assert forall c :: IsDigit(c) ==> KeyChar(c);
    }
  }

  /** A de-duplicated key keeps the pattern exactly when its suffix still fits. */
  lemma FreshNameFits(name: string, seen: set<string>)
    ensures var slug := FreshName(SlugifyKey(name), seen);
      KeyPattern(slug) <==> (SlugifyKey(name) in seen ==>
        |SlugifyKey(name)| + 1 + |Decimal(FreeIndex(SlugifyKey(name), seen, 2))| <= 40)
  {
    SlugIsKey(name);
    FreshNameLaws(name, seen);
  }

  /** In terms a caller knows, for the up to 97 names that can precede it: a key
      stays within the pattern exactly when it is free, or leaves room for two
      digits, or leaves room for one and some suffix up to 9 is free. */
  lemma FreshNameFitsExactlyWhen(name: string, seen: set<string>)
    requires |seen| <= 97
    ensures var slug := SlugifyKey(name);
      KeyPattern(FreshName(slug, seen)) <==>
        slug !in seen || |slug| <= 37 || (|slug| == 38 && exists i :: 2 <= i <= 9 && Suffixed(slug, i) !in seen)
  {
    hide SlugifyKey, KeyPattern, Decimal;
    var slug := SlugifyKey(name);
    FreshNameFits(name, seen);
    SlugIsKey(name);
    if slug in seen {
      var k := FreeIndex(slug, seen, 2);
      TakenIsBounded(slug, seen, k);
      TwoDigits(k);
      if |slug| == 38 && k <= 9 { assert Suffixed(slug, k) !in seen; }
    }
    if slug !in seen { FreshNameLaws(name, seen); }
  }

  lemma TwoDigits(n: nat)
    requires n < 100
    ensures |Decimal(n)| == if n < 10 then 1 else 2
  {
  }

  // --- nothing is lost --------------------------------------------------------------------

  function StepObjects(items: seq<RawItem>): seq<RawStep> {
    if items == [] then []
    else StepObjects(items[..|items| - 1]) + (if items[|items| - 1].Obj? then [items[|items| - 1].step] else [])
  }

  /** One step out for each object in, in order, with only its key and its
      unknown fields changed; the keys handed out are pairwise distinct. */
  lemma {:induction false} StepsLoseNothing(items: seq<RawItem>)
    ensures var (b, objects) := (BuildSteps(items), StepObjects(items));
      && |b.out| == |objects|
      && (forall i :: 0 <= i < |b.out| ==> b.out[i] == objects[i].(unknown := {}, key := b.out[i].key))
      && (forall i :: 0 <= i < |b.out| && !HasUsableKey(objects[i]) ==> b.out[i].key == objects[i].key)
      && (forall i :: 0 <= i < |b.out| && HasUsableKey(objects[i]) ==>
            b.out[i].key.Is? && b.out[i].key.value in b.seen && b.out[i].key.value != "" &&
              AllKeyChars(b.out[i].key.value))
      && (forall i, j :: 0 <= i < j < |b.out| && HasUsableKey(objects[i]) && HasUsableKey(objects[j]) ==>
            b.out[i].key != b.out[j].key)
  {
    if items != [] {
      StepsLoseNothing(items[..|items| - 1]);
      var last := items[|items| - 1];
      if last.Obj? && HasUsableKey(last.step) {
        FreshNameLaws(last.step.key.value, BuildSteps(items[..|items| - 1]).seen);
      }
    }
  }

  function FlowObjects(flows: Dict<RawEntry>): seq<RawFlow> {
    if flows == [] then []
    else FlowObjects(flows[..|flows| - 1]) + (if flows[|flows| - 1].1.FlowObj? then [flows[|flows| - 1].1.flow] else [])
  }

  lemma {:induction false} AppendKeys<V>(d: Dict<V>, key: string, value: V)
    ensures Keys(d + [(key, value)]) == Keys(d) + {key}
    ensures Unique(d) && key !in Keys(d) ==> Unique(d + [(key, value)])
  {
    if d == [] {
      assert (d + [(key, value)])[1..] == [];
    } else {
      AppendKeys(d[1..], key, value);
      assert (d + [(key, value)])[1..] == d[1..] + [(key, value)];
    }
  }

  /** One flow out for each object in, in order, under pairwise distinct names. */
  lemma {:induction false} FlowsLoseNothing(flows: Dict<RawEntry>)
    ensures var (b, objects) := (BuildFlows(flows), FlowObjects(flows));
      && |b.out| == |objects|
      && Keys(b.out) == b.seen && Unique(b.out)
      && (forall i :: 0 <= i < |b.out| ==>
            b.out[i].0 != "" && AllKeyChars(b.out[i].0) && b.out[i].1 == CleanFlow(objects[i]))
  {
    hide CleanFlow;
    if flows != [] {
      var (front, last) := (flows[..|flows| - 1], flows[|flows| - 1]);
      FlowsLoseNothing(front);
      if last.1.FlowObj? {
        FreshNameLaws(last.0, BuildFlows(front).seen);
        AppendKeys(BuildFlows(front).out, FreshName(SlugifyKey(last.0), BuildFlows(front).seen),
          CleanFlow(last.1.flow));
      }
    }
  }

  // --- validation of a table, entry by entry --------------------------------------------------

  lemma {:induction false} FlowsValidateOneByOne(flows: Dict<RawFlow>)
    ensures ValidateFlows(flows).Valid? <==> forall i :: 0 <= i < |flows| ==> ValidateFlow(flows[i].1).Valid?
    ensures ValidateFlows(flows).Valid? ==>
      |ValidateFlows(flows).value| == |flows| &&
      forall i :: 0 <= i < |flows| ==> ValidateFlows(flows).value[i] == (flows[i].0, ValidateFlow(flows[i].1).value)
  {
    hide ValidateFlow;
    if flows != [] {
      FlowsValidateOneByOne(flows[1..]);
      assert forall i :: 1 <= i < |flows| ==> flows[i] == flows[1..][i - 1];
    }
  }

  lemma {:induction false} ValidatedGet(flows: Dict<RawFlow>, name: string)
    requires ValidateFlows(flows).Valid?
    ensures Get(ValidateFlows(flows).value, name).Some? <==> Get(flows, name).Some?
    ensures Get(flows, name).Some? ==>
      ValidateFlow(Get(flows, name).value) == Valid(Get(ValidateFlows(flows).value, name).value)
  {
    hide ValidateFlow;
    if flows != [] {
      ValidatedGet(flows[1..], name);
      assert ValidateFlows(flows).value[1..] == ValidateFlows(flows[1..]).value;
    }
  }

  // --- salvage ----------------------------------------------------------------------------------

  /** The positions of the entries that validate on their own, in order. */
  function ValidPositions(flows: Dict<RawFlow>): seq<nat> {
    if flows == [] then []
    else ValidPositions(flows[..|flows| - 1])
         + (if ValidateFlow(flows[|flows| - 1].1).Valid? then [|flows| - 1] else [])
  }

  /** Salvage keeps the entries in their order: what it keeps stands at increasing
      positions, and every valid entry's position is among them. */
  lemma {:induction false} SalvageKeepsOrder(flows: Dict<RawFlow>)
    ensures var at := ValidPositions(flows);
      && |at| == |Salvaged(flows)|
      && (forall i :: 0 <= i < |at| ==> at[i] < |flows| && Salvaged(flows)[i] == flows[at[i]])
      && (forall i, j :: 0 <= i < j < |at| ==> at[i] < at[j])
      && (forall p :: 0 <= p < |flows| ==> (p in at <==> ValidateFlow(flows[p].1).Valid?))
  {
    hide ValidateFlow;
    if flows != [] { SalvageKeepsOrder(flows[..|flows| - 1]); }
  }

  /** Salvage keeps exactly the entries that validate on their own, so every
      sub-table of valid entries is within it; it changes nothing when all do. */
  lemma {:induction false} SalvageLaws(flows: Dict<RawFlow>)
    ensures forall e :: e in Salvaged(flows) <==> e in flows && ValidateFlow(e.1).Valid?
    ensures ValidateFlows(Salvaged(flows)).Valid?
    ensures (forall i :: 0 <= i < |flows| ==> ValidateFlow(flows[i].1).Valid?) ==> Salvaged(flows) == flows
    ensures |Salvaged(flows)| <= |flows|
  {
    hide ValidateFlow, ValidateFlows;
    if flows != [] {
      var (front, last) := (flows[..|flows| - 1], flows[|flows| - 1]);
      SalvageLaws(front);
      assert flows == front + [last];
    }
    SalvagedIsValid(flows);
  }

  lemma {:induction false} SalvagedIsValid(flows: Dict<RawFlow>)
    ensures ValidateFlows(Salvaged(flows)).Valid?
  {
    hide ValidateFlow, ValidateFlows;
    if flows != [] { SalvagedIsValid(flows[..|flows| - 1]); }
    FlowsValidateOneByOne(Salvaged(flows[..if flows == [] then 0 else |flows| - 1]));
    FlowsValidateOneByOne(Salvaged(flows));
  }

  // --- the gate -----------------------------------------------------------------------------------

  /** Whatever a merge returns is within every bound. */
  lemma MergeIsWithin(b: Boilerplate, current: RawSettings, ch: Changes)
    requires Gate(Merged(b, current, ch), FullReset(ch)).Valid?
    ensures SettingsBounds(Gate(Merged(b, current, ch), FullReset(ch)).value)
  {
    var merged := Merged(b, current, ch);
    if Validate(merged).Valid? {
      ValidatedIsWithin(merged);
    } else {
      ValidatedIsWithin(merged.(flows := Salvaged(merged.flows)));
    }
  }

  /** A full rebuild succeeds exactly when the profile and the handoff keywords
      validate and the salvaged flows are at most 20 under names that fit; it
      then consists of precisely the salvaged flows. */
  lemma RebuildKeepsTheValidFlows(b: Boilerplate, current: RawSettings, ch: Changes)
    requires FullReset(ch)
    ensures
      var merged := Merged(b, current, ch);
      var good := Salvaged(DropAll(BuildFlows(ch.flows.GetOr([])).out, ch.deleteFlows));
      var r := Gate(merged, true);
      && (r.Valid? <==>
           && ValidateProfile(merged.profile).Valid? && ValidateHandoff(merged.handoffKeywords).Valid?
           && FlowNamesOk(good))
      && (r.Valid? ==> Valid(r.value.flows) == ValidateFlows(good))
  {
    hide ValidateProfile, ValidateHandoff, BuildFlows, MergedProfile, ValidateFlow;
    var merged := Merged(b, current, ch);
    SalvageLaws(merged.flows);
    FlowsValidateOneByOne(merged.flows);
  }

  /** An incremental edit applies whole or not at all. */
  lemma EditIsAllOrNothing(b: Boilerplate, current: RawSettings, ch: Changes)
    requires !FullReset(ch)
    ensures
      var merged := Merged(b, current, ch);
      Gate(merged, false).Valid? <==>
        && (forall i :: 0 <= i < |merged.flows| ==> ValidateFlow(merged.flows[i].1).Valid?)
        && FlowNamesOk(merged.flows)
        && ValidateProfile(merged.profile).Valid? && ValidateHandoff(merged.handoffKeywords).Valid?
  {
    hide ValidateProfile, ValidateHandoff, MergedFlows, MergedProfile, ValidateFlow;
    FlowsValidateOneByOne(Merged(b, current, ch).flows);
  }

  lemma {:induction false} DumpGet(flows: Dict<Flow>, name: string)
    ensures Get(DumpFlows(flows), name) == if Get(flows, name).Some? then Some(DumpFlow(Get(flows, name).value))
      else None
  {
    hide DumpFlow;
    if flows != [] {
      DumpGet(flows[1..], name);
      assert DumpFlows(flows)[1..] == DumpFlows(flows[1..]);
    }
  }

  /** An incremental edit of a validated configuration changes only the flows it
      names: deleted ones are gone, named ones are what the change says, all
      others are untouched. */
  lemma EditTouchesOnlyNamedFlows(b: Boilerplate, cfg: Settings, ch: Changes, name: string)
    requires SettingsBounds(cfg) && Unique(cfg.flows) && !FullReset(ch)
    requires Gate(Merged(b, Dump(cfg), ch), false).Valid?
    ensures
      var after := Get(Gate(Merged(b, Dump(cfg), ch), false).value.flows, name);
      var incoming := Get(BuildFlows(ch.flows.GetOr([])).out, name);
      && (name in ch.deleteFlows ==> after.None?)
      && (name !in ch.deleteFlows && incoming.Some? ==>
        after.Some? && ValidateFlow(incoming.value) == Valid(after.value))
      && (name !in ch.deleteFlows && incoming.None? ==> after == Get(cfg.flows, name))
  {
    hide ValidateProfile, ValidateHandoff, BuildFlows, MergedProfile, ValidateFlow, DumpFlow, DumpProfile, FlowBounds;
    var incoming := BuildFlows(ch.flows.GetOr([])).out;
    FlowsLoseNothing(ch.flows.GetOr([]));
    FlowsAreFixed(cfg.flows);
    PutAllLaws(DumpFlows(cfg.flows), incoming, name);
    DropAllLaws(PutAll(DumpFlows(cfg.flows), incoming), ch.deleteFlows, name);
    KeysAreKeys(incoming, name);
    ValidatedGet(Merged(b, Dump(cfg), ch).flows, name);
    DumpGet(cfg.flows, name);
    ValidatedGet(DumpFlows(cfg.flows), name);
  }

  /** Two flows whose names become the same 39- or 40-character key sink a whole
      rebuild: the second one's suffix does not fit, and salvage looks only at
      the flow, not at its name. */
  lemma CollidingLongNamesSinkRebuild(
    b: Boilerplate, current: RawSettings, ch: Changes, first: (string, RawEntry), second: (string, RawEntry))
    requires FullReset(ch) && ch.flows == Some([first, second]) && ch.deleteFlows == []
    requires first.1.FlowObj? && second.1.FlowObj?
    requires SlugifyKey(first.0) == SlugifyKey(second.0) && |SlugifyKey(first.0)| >= 39
    requires ValidateFlow(CleanFlow(second.1.flow)).Valid?
    ensures Gate(Merged(b, current, ch), true).Invalid?
  {
    hide ValidateProfile, ValidateHandoff, MergedProfile, ValidateFlow, CleanFlow, SlugifyKey, FreeIndex;
    var slug := SlugifyKey(first.0);
    var singleton: Dict<RawEntry> := [first];
    assert singleton[..|singleton| - 1] == [];
    assert BuildFlows([]) == Building([], {});
    assert BuildFlows(singleton) == Building([(slug, CleanFlow(first.1.flow))], {slug});
    assert [first, second][..1] == singleton;
    var name := Suffixed(slug, FreeIndex(slug, {slug}, 2));
    var both := BuildFlows([first, second]).out;
    assert both == [(slug, CleanFlow(first.1.flow)), (name, CleanFlow(second.1.flow))];
    ParseDecimal(FreeIndex(slug, {slug}, 2));
    assert |name| > 40;
    RebuildKeepsTheValidFlows(b, current, ch);
    SalvageLaws(both);
    var good := Salvaged(both);
    assert both[1] in good;
    var i :| 0 <= i < |good| && good[i] == both[1];
    assert !KeyPattern(good[i].0);
  }

  /** A rebuild never fails for want of a name or a prompt: a blank one is filled
      in, and the profile then validates exactly when the other fields do, a name
      that was given does, and the prompt, given or made up around the name, does. */
  lemma MissingProfileTextsAreFilled(b: Boilerplate, p: RawProfile)
    requires TextWithin(b.name, 1, 80)
    ensures
      var name := if BlankField(p.name) then Is(b.name) else p.name;
      var prompt := if BlankField(p.systemPrompt) && name.Is? then Is(b.promptBefore + name.value + b.promptAfter)
                    else p.systemPrompt;
      ValidateProfile(FillProfile(b, p)).Valid? <==>
        && ValidateProfile(p.(name := Is("x"), systemPrompt := Is("x"))).Valid?
        && (BlankField(p.name) || ReadText(p.name, 80).Valid?)
        && ReadText(prompt, 4000).Valid?
  {
    hide CleanKeywords, Strip;
    StrippedIsFixed(b.name);
    StrippedIsFixed("x");
  }

  const NO_PROFILE := RawProfile(Absent, Absent, Absent, Absent, Absent, Absent, Absent, Absent, {})

  /** A bot built from nothing: over an empty working copy and with flows alone in
      the change, a rebuild is refused only if what can be salvaged is more than 20
      flows or has a name that does not fit; it has no handoff keywords. */
  lemma RebuildFromNothing(b: Boilerplate, current: RawSettings, ch: Changes)
    requires TextWithin(b.name, 1, 80) && 1 <= |Strip(b.promptBefore + b.name + b.promptAfter)| <= 4000
    requires current == RawSettings([], NO_PROFILE, Absent, false)
    requires FullReset(ch) && ch.profile.None? && (ch.handoffKeywords.Absent? || ch.handoffKeywords.Null?)
    ensures
      var good := Salvaged(DropAll(BuildFlows(ch.flows.GetOr([])).out, ch.deleteFlows));
      var r := Gate(Merged(b, current, ch), true);
      && (r.Valid? <==> FlowNamesOk(good))
      && (r.Valid? ==> Valid(r.value.flows) == ValidateFlows(good) && r.value.handoffKeywords == [])
  {
    hide BuildFlows, ValidateFlows, Strip, ValidateProfile, FillProfile, FlowNamesOk, Salvaged;
    RebuildKeepsTheValidFlows(b, current, ch);
    MissingProfileTextsAreFilled(b, NO_PROFILE);
    EmptyProfileReads();
    NoKeywords();
  }

  lemma EmptyProfileReads()
    ensures ValidateProfile(NO_PROFILE.(name := Is("x"), systemPrompt := Is("x"))).Valid?
  {
    StrippedIsFixed("x");
  }

  lemma NoKeywords()
    ensures ValidateHandoff(Is([])) == Valid([])
  {
  }

  // --- what a change cannot say -----------------------------------------------------------

  /** No flow that comes in through a change carries a customer message. */
  lemma IncomingFlowsCarryNoMessage(flows: Dict<RawEntry>, i: nat)
    requires i < |BuildFlows(flows).out|
    ensures BuildFlows(flows).out[i].1.message == Absent
  {
    FlowsLoseNothing(flows);
  }

  /** `deleteFlows` is taken literally: a name that is no flow's key deletes
      nothing, even when its own key is one. */
  lemma DeletedNamesAreNotMadeKeys(b: Boilerplate, cfg: Settings, ch: Changes, name: string)
    requires SettingsBounds(cfg) && Unique(cfg.flows) && !FullReset(ch) && ch.flows.None?
    requires Get(cfg.flows, SlugifyKey(name)).Some? && SlugifyKey(name) !in ch.deleteFlows && name in ch.deleteFlows
    requires Gate(Merged(b, Dump(cfg), ch), false).Valid?
    ensures Get(Gate(Merged(b, Dump(cfg), ch), false).value.flows, SlugifyKey(name)) == Get(cfg.flows, SlugifyKey(name))
  {
    hide SlugifyKey, Gate, Merged;
    EditTouchesOnlyNamedFlows(b, cfg, ch, SlugifyKey(name));
    assert Get(BuildFlows(ch.flows.GetOr([])).out, SlugifyKey(name)).None?;
  }
}
