/** What a change to the configuration does, from the change object and the
    configuration it meets to the configuration that results, field by field. */
module MergeLaws {
  import opened Wrappers
  import opened BotModel
  import opened OrderedDict
  import opened Text
  import opened BotConfig
  import opened ConfigLaws
  import opened ValidationLaws
  import opened BotBuilder
  import opened BuilderLaws

  // --- the profile --------------------------------------------------------------------

  /** The profile fields the change gives; a change without a profile gives none. */
  function Given(ch: Changes): RawProfile { ch.profile.GetOr(NO_PROFILE) }

  /** A field is read from the change where the change gives it, even as null, and
      from the working copy where it does not. */
  ghost predicate TextArrives(given: Field<string>, own: Field<string>, now: string) {
    (given.Absent? ==> ReadsText(own, now)) && (!given.Absent? ==> ReadsText(given, now))
  }

  ghost predicate DefaultedArrives(given: Field<string>, own: Field<string>, now: string) {
    (given.Absent? ==> ReadsDefaulted(own, now)) && (!given.Absent? ==> ReadsDefaulted(given, now))
  }

  ghost predicate ReadsOr<T>(f: Field<T>, otherwise: T, now: T) {
    (f.Absent? && now == otherwise) || f == Is(now)
  }

  ghost predicate ValueArrives<T>(given: Field<T>, own: Field<T>, otherwise: T, now: T) {
    (given.Absent? ==> ReadsOr(own, otherwise, now)) && (!given.Absent? ==> given == Is(now))
  }

  ghost predicate ReadsWords(f: Field<seq<string>>, now: seq<string>) {
    (f.Absent? && now == []) || (f.Is? && ReadsList(f.value, now, false, true))
  }

  ghost predicate WordsArrive(given: Field<seq<string>>, own: Field<seq<string>>, now: seq<string>) {
    (given.Absent? ==> ReadsWords(own, now)) && (!given.Absent? ==> ReadsWords(given, now))
  }

  /** All fields but the two a rebuild fills in. */
  ghost predicate OthersArrive(given: RawProfile, own: RawProfile, now: Profile) {
    && DefaultedArrives(given.tone, own.tone, now.tone)
    && ValueArrives(given.language, own.language, Hebrew, now.language)
    && DefaultedArrives(given.greeting, own.greeting, now.greeting)
    && DefaultedArrives(given.escalationMessage, own.escalationMessage, now.escalationMessage)
    && ValueArrives(given.autoCloseMinutes, own.autoCloseMinutes, 60, now.autoCloseMinutes)
    && WordsArrive(given.menuKeywords, own.menuKeywords, now.menuKeywords)
  }

  ghost predicate ProfileArrives(given: RawProfile, own: RawProfile, now: Profile) {
    && TextArrives(given.name, own.name, now.name)
    && TextArrives(given.systemPrompt, own.systemPrompt, now.systemPrompt)
    && OthersArrive(given, own, now)
  }

  /** Null, blank, or named nowhere. */
  ghost predicate Missing(given: Field<string>, own: Field<string>) {
    var f := if given.Absent? then own else given;
    f.Absent? || f.Null? || (f.Is? && Strip(f.value) == "")
  }

  /** On a rebuild a missing name is the stock name, and a missing prompt is written
      around the name, as it was given. */
  ghost predicate ProfileRebuilt(b: Boilerplate, given: RawProfile, own: RawProfile, now: Profile) {
    && (Missing(given.name, own.name) ==> now.name == Strip(b.name))
    && (!Missing(given.name, own.name) ==> TextArrives(given.name, own.name, now.name))
    && (!Missing(given.systemPrompt, own.systemPrompt) ==>
          TextArrives(given.systemPrompt, own.systemPrompt, now.systemPrompt))
    && (Missing(given.systemPrompt, own.systemPrompt) ==>
          exists name: string :: now.systemPrompt == Strip(b.promptBefore + name + b.promptAfter) &&
            (if Missing(given.name, own.name) then name == b.name
             else Is(name) == if given.name.Absent? then own.name else given.name))
    && OthersArrive(given, own, now)
  }

  lemma ProfileIsMerged(b: Boilerplate, current: RawProfile, ch: Changes, now: Profile)
    requires current.unknown == {} && !ch.deleteAll && !ch.replaceAll
    ensures ReadsProfile(MergedProfile(b, current, ch), now) <==> ProfileArrives(Given(ch), current, now)
  {
    hide ReadsText, ReadsDefaulted, ReadsList;
  }

  lemma ProfileIsRebuilt(b: Boilerplate, current: RawProfile, ch: Changes, now: Profile)
    requires current.unknown == {} && (ch.deleteAll || ch.replaceAll)
    ensures ReadsProfile(MergedProfile(b, current, ch), now) <==> ProfileRebuilt(b, Given(ch), current, now)
  {
    hide ReadsDefaulted, ReadsList, Strip;
    var merged := MergedProfile(b, current, ch);
    var given := Given(ch);
    var name := if given.name.Absent? then current.name else given.name;
    assert merged.name == if Missing(given.name, current.name) then Is(b.name) else name;
    if merged.name.Is? && Missing(given.systemPrompt, current.systemPrompt) {
      assert merged.systemPrompt == Is(b.promptBefore + merged.name.value + b.promptAfter);
    }
  }

  // --- the other fields ------------------------------------------------------------------

  /** Handoff keywords come from the change's list, and from the working copy where
      the change has none; a working copy that names none has none. */
  ghost predicate KeywordsArrive(given: Field<seq<string>>, own: Field<seq<string>>, now: seq<string>) {
    if !given.Absent? && !given.Null? then given.Is? && ReadsList(given.value, now, false, true)
    else if !own.Absent? && !own.Null? then own.Is? && ReadsList(own.value, now, false, true)
    else now == []
  }

  ghost predicate PublishedArrives(given: Option<bool>, own: bool, now: bool) {
    (given.None? ==> now == own) && (given.Some? ==> now == given.value)
  }

  lemma KeywordsAreMerged(b: Boilerplate, current: RawSettings, ch: Changes, now: seq<string>)
    ensures ReadsHandoff(Merged(b, current, ch).handoffKeywords, now) <==>
      KeywordsArrive(ch.handoffKeywords, current.handoffKeywords, now)
  {
    hide ReadsList, MergedFlows, MergedProfile;
    NothingReads(now);
  }

  lemma NothingReads(now: seq<string>)
    ensures ReadsList([], now, false, true) <==> now == []
  {
    ReadingIs([], now, false, true);
  }

  // --- the flows --------------------------------------------------------------------------

  /** The flows of an edit, before they are validated: the working copy's, with the
      incoming ones put under their names, less the deleted ones. */
  function EditedFlows(current: Dict<RawFlow>, ch: Changes): Dict<RawFlow> {
    DropAll(PutAll(current, BuildFlows(ch.flows.GetOr([])).out), ch.deleteFlows)
  }

  /** The flows of a rebuild: the incoming ones, less the deleted ones, and of these
      the ones that validate. */
  function RebuiltFlows(ch: Changes): Dict<RawFlow> {
    Salvaged(DropAll(BuildFlows(ch.flows.GetOr([])).out, ch.deleteFlows))
  }

  // --- the laws -----------------------------------------------------------------------------

  /** An edit yields `now` exactly when every field of `now` has arrived and `now` is
      within the bounds; otherwise it is refused. */
  lemma EditIs(b: Boilerplate, current: RawSettings, ch: Changes, now: Settings)
    requires current.profile.unknown == {} && !ch.deleteAll && !ch.replaceAll
    ensures Changed(b, current, ch) == Valid(now) <==>
      && ReadsFlows(EditedFlows(current.flows, ch), now.flows)
      && ProfileArrives(Given(ch), current.profile, now.profile)
      && KeywordsArrive(ch.handoffKeywords, current.handoffKeywords, now.handoffKeywords)
      && PublishedArrives(ch.published, current.published, now.published)
      && SettingsBounds(now)
  {
    hide Validate, ReadsFlows, ReadsProfile, ReadsHandoff, ProfileArrives, KeywordsArrive, SettingsBounds, BuildFlows,
      MergedProfile, DropAll, PutAll;
    ValidatesExactlyWhen(Merged(b, current, ch), now);
    ProfileIsMerged(b, current.profile, ch, now.profile);
    KeywordsAreMerged(b, current, ch, now.handoffKeywords);
  }

  /** A rebuild yields `now` exactly when the flows of `now` are the incoming ones that
      validate, every other field has arrived, and `now` is within the bounds. */
  lemma RebuildIs(b: Boilerplate, current: RawSettings, ch: Changes, now: Settings)
    requires current.profile.unknown == {} && (ch.deleteAll || ch.replaceAll)
    ensures Changed(b, current, ch) == Valid(now) <==>
      && ReadsFlows(RebuiltFlows(ch), now.flows)
      && ProfileRebuilt(b, Given(ch), current.profile, now.profile)
      && KeywordsArrive(ch.handoffKeywords, current.handoffKeywords, now.handoffKeywords)
      && PublishedArrives(ch.published, current.published, now.published)
      && SettingsBounds(now)
  {
    hide Validate, ReadsFlows, ReadsProfile, ReadsHandoff, ProfileRebuilt, KeywordsArrive, SettingsBounds, BuildFlows,
      MergedProfile, DropAll, Salvaged, Gate;
    var merged := Merged(b, current, ch);
    GateSalvages(merged);
    ValidatesExactlyWhen(merged.(flows := Salvaged(merged.flows)), now);
    ProfileIsRebuilt(b, current.profile, ch, now.profile);
    KeywordsAreMerged(b, current, ch, now.handoffKeywords);
  }

  lemma GateSalvages(merged: RawSettings)
    ensures Gate(merged, true) == Validate(merged.(flows := Salvaged(merged.flows)))
  {
    hide ValidateFlow, ValidateProfile, ValidateHandoff, Salvaged, ValidateFlows;
    SalvageLaws(merged.flows);
    FlowsValidateOneByOne(merged.flows);
    if Validate(merged).Valid? {
      assert Salvaged(merged.flows) == merged.flows;
      assert merged.(flows := Salvaged(merged.flows)) == merged;
    }
  }

  /** A field of a validated configuration that a change does not mention stays as it
      is, and one it does mention becomes what the change says: all eight profile
      fields, the handoff keywords and the published flag. */
  lemma EditOfAConfiguration(b: Boilerplate, cfg: Settings, ch: Changes, now: Settings)
    requires SettingsBounds(cfg) && !ch.deleteAll && !ch.replaceAll && Changed(b, Dump(cfg), ch) == Valid(now)
    ensures
      var (p, own, got) := (Given(ch), cfg.profile, now.profile);
      && (if p.name.Absent? then got.name == own.name else ReadsText(p.name, got.name))
      && (if p.systemPrompt.Absent? then got.systemPrompt == own.systemPrompt
          else ReadsText(p.systemPrompt, got.systemPrompt))
      && OthersStay(p, own, got)
      && WordsStay(ch, cfg, now)
  {
    hide SettingsBounds, EditedFlows, ReadsFlows, ReadsList, Changed, Strip, OthersArrive, OthersStay;
    EditIs(b, Dump(cfg), ch, now);
    OwnFieldsRead(cfg, now);
    OthersAreOwn(Given(ch), cfg, now);
    OwnTextsRead(cfg.profile.name, now.profile.name, 80);
    OwnTextsRead(cfg.profile.systemPrompt, now.profile.systemPrompt, 4000);
  }

  ghost predicate OthersStay(p: RawProfile, own: Profile, got: Profile) {
    && (if p.tone.Absent? then got.tone == own.tone else ReadsDefaulted(p.tone, got.tone))
    && (if p.language.Absent? then got.language == own.language else p.language == Is(got.language))
    && (if p.greeting.Absent? then got.greeting == own.greeting else ReadsDefaulted(p.greeting, got.greeting))
    && (if p.escalationMessage.Absent? then got.escalationMessage == own.escalationMessage
        else ReadsDefaulted(p.escalationMessage, got.escalationMessage))
    && (if p.autoCloseMinutes.Absent? then got.autoCloseMinutes == own.autoCloseMinutes
        else p.autoCloseMinutes == Is(got.autoCloseMinutes))
    && (if p.menuKeywords.Absent? then got.menuKeywords == own.menuKeywords
        else ReadsWords(p.menuKeywords, got.menuKeywords))
  }

  ghost predicate WordsStay(ch: Changes, cfg: Settings, now: Settings) {
    && (if ch.handoffKeywords.Absent? || ch.handoffKeywords.Null? then now.handoffKeywords == cfg.handoffKeywords
        else ch.handoffKeywords.Is? && ReadsList(ch.handoffKeywords.value, now.handoffKeywords, false, true))
    && now.published == (if ch.published.Some? then ch.published.value else cfg.published)
  }

  lemma OwnTextsRead(s: string, t: string, max: nat)
    requires TextWithin(s, 0, max)
    ensures ReadsText(Is(s), t) <==> t == s
    ensures ReadsDefaulted(Is(s), t) <==> t == s
    ensures Strip(s) == s
  {
    StrippedIsFixed(s);
  }

  lemma OwnListReads(words: seq<string>, now: seq<string>)
    requires CleanList(words, true, 40)
    ensures ReadsList(words, now, false, true) <==> now == words
  {
    ReadingIs(words, now, false, true);
    CleanPieces(words, false);
    DedupeDistinct(words, true);
  }

  /** A validated configuration reads as itself. */
  lemma OwnFieldsRead(cfg: Settings, now: Settings)
    requires SettingsBounds(cfg)
    ensures
      var (own, got) := (cfg.profile, now.profile);
      && TextWithin(own.name, 1, 80) && TextWithin(own.systemPrompt, 1, 4000)
      && (ReadsDefaulted(Is(own.tone), got.tone) <==> got.tone == own.tone)
      && (ReadsDefaulted(Is(own.greeting), got.greeting) <==> got.greeting == own.greeting)
      && (ReadsDefaulted(Is(own.escalationMessage), got.escalationMessage) <==>
            got.escalationMessage == own.escalationMessage)
      && (ReadsWords(Is(own.menuKeywords), got.menuKeywords) <==> got.menuKeywords == own.menuKeywords)
      && (ReadsList(cfg.handoffKeywords, now.handoffKeywords, false, true) <==>
            now.handoffKeywords == cfg.handoffKeywords)
  {
    hide ReadsList, CleanList, ReadsDefaulted, FlowsBounds;
    var (own, got) := (cfg.profile, now.profile);
    OwnTextsRead(own.tone, got.tone, 120);
    OwnTextsRead(own.greeting, got.greeting, 1000);
    OwnTextsRead(own.escalationMessage, got.escalationMessage, 1000);
    OwnListReads(own.menuKeywords, got.menuKeywords);
    OwnListReads(cfg.handoffKeywords, now.handoffKeywords);
  }

  lemma OthersAreOwn(p: RawProfile, cfg: Settings, now: Settings)
    requires SettingsBounds(cfg)
    requires OthersArrive(p, DumpProfile(cfg.profile), now.profile)
    ensures OthersStay(p, cfg.profile, now.profile)
  {
    hide SettingsBounds, ReadsList, ReadsDefaulted;
    OwnFieldsRead(cfg, now);
  }

  /** The same for a rebuild, where a name or prompt given as null or blank is filled
      in, and an own one is kept where none is given. */
  lemma RebuildOfAConfiguration(b: Boilerplate, cfg: Settings, ch: Changes, now: Settings)
    requires SettingsBounds(cfg) && (ch.deleteAll || ch.replaceAll) && Changed(b, Dump(cfg), ch) == Valid(now)
    ensures
      var (p, own, got) := (Given(ch), cfg.profile, now.profile);
      var stock := p.name.Null? || (p.name.Is? && Strip(p.name.value) == "");
      var name := if stock then b.name else if p.name.Is? then p.name.value else own.name;
      && got.name == Strip(name) && !p.name.Junk?
      && (p.systemPrompt.Absent? ==> got.systemPrompt == own.systemPrompt)
      && (p.systemPrompt.Null? || (p.systemPrompt.Is? && Strip(p.systemPrompt.value) == "") ==>
            got.systemPrompt == Strip(b.promptBefore + name + b.promptAfter))
      && (p.systemPrompt.Is? && Strip(p.systemPrompt.value) != "" ==> got.systemPrompt == Strip(p.systemPrompt.value))
      && OthersStay(p, own, got)
      && WordsStay(ch, cfg, now)
  {
    hide SettingsBounds, RebuiltFlows, ReadsFlows, ReadsList, Changed, Strip, OthersArrive, OthersStay;
    RebuildIs(b, Dump(cfg), ch, now);
    OwnFieldsRead(cfg, now);
    OthersAreOwn(Given(ch), cfg, now);
    OwnTextsRead(cfg.profile.name, now.profile.name, 80);
    OwnTextsRead(cfg.profile.systemPrompt, now.profile.systemPrompt, 4000);
  }

  // --- the order of the flows --------------------------------------------------------------

  lemma {:induction false} SameNames<V, W>(d: Dict<V>, e: Dict<W>)
    requires |d| == |e| && forall i :: 0 <= i < |d| ==> d[i].0 == e[i].0
    ensures Names(d) == Names(e)
  {
    if d != [] { SameNames(d[1..], e[1..]); }
  }

  /** The menu after an edit: the flows there were, in their order, then the new ones,
      in the order of the change, less the deleted ones. */
  lemma EditKeepsOrder(b: Boilerplate, cfg: Settings, ch: Changes, now: Settings)
    requires SettingsBounds(cfg) && Unique(cfg.flows) && !ch.deleteAll && !ch.replaceAll
    requires Changed(b, Dump(cfg), ch) == Valid(now)
    ensures
      var incoming := Names(BuildFlows(ch.flows.GetOr([])).out);
      Names(now.flows) ==
        Without(Names(cfg.flows) + Without(incoming, Keys(cfg.flows)), set name | name in ch.deleteFlows)
  {
    hide SettingsBounds, ReadsFlow, ReadsList, Changed, BuildFlows, Names, Without, KeywordsArrive, ProfileArrives,
      DropAll, PutAll, Put, Drop;
    var incoming := BuildFlows(ch.flows.GetOr([])).out;
    EditIs(b, Dump(cfg), ch, now);
    SameNames(EditedFlows(Dump(cfg).flows, ch), now.flows);
    FlowsLoseNothing(ch.flows.GetOr([]));
    DumpedNames(cfg);
    PutAllKeepsOrder(DumpFlows(cfg.flows), incoming);
    PutAllLaws(DumpFlows(cfg.flows), incoming, "");
    DropAllKeepsOrder(PutAll(DumpFlows(cfg.flows), incoming), ch.deleteFlows);
  }

  lemma DumpedNames(cfg: Settings)
    requires SettingsBounds(cfg)
    ensures Names(DumpFlows(cfg.flows)) == Names(cfg.flows) && Keys(DumpFlows(cfg.flows)) == Keys(cfg.flows)
    ensures Unique(cfg.flows) ==> Unique(DumpFlows(cfg.flows))
  {
    FlowsAreFixed(cfg.flows);
    SameNames(DumpFlows(cfg.flows), cfg.flows);
  }
}
