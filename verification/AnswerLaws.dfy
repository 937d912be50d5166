/** Which answers a questionnaire can store: exactly the fitting ones that can be
    said without a keyword taking the message. */
module AnswerLaws {
  import opened Wrappers
  import opened BotModel
  import opened Text
  import opened BotEngine
  import opened EngineLaws
  import opened ConfigLaws

  /** The turn stores this answer under the open step and moves on. */
  ghost predicate Stores(w: Wording, cfg: Settings, st: State, input: Input, answer: Answer)
    requires OpenStep(cfg, st).Some?
  {
    var t := Advance(w, cfg, st, input);
    var filled := st.collected[OpenStep(cfg, st).value.key := answer];
    (t.event.LeadCompleted? && t.lead == Some(filled)) ||
    (t.event.NoEvent? && t.state == State(InFlow, st.activeFlow, st.stepIndex + 1, filled))
  }

  predicate Taken(w: Wording, cfg: Settings, text: string) {
    MatchesMenuKeyword(w, cfg, text) || MatchesHandoffKeyword(cfg, text)
  }

  /** The text is a way to put the answer to this step in words. */
  predicate Says(w: Wording, step: Step, text: string, answer: Answer) {
    match step.kind
    case FileStep => answer.Skipped? && text != "" && IsSkipWord(w, text)
    case PhoneStep => answer.Words? && OnlyDigits(text) == answer.text
    case ChoiceStep =>
      answer.Words? &&
      if AllDigits(text) then 1 <= ParseNat(text) <= |step.options| && step.options[ParseNat(text) - 1] == answer.text
      else text == answer.text
    case _ => answer.Words? && text == answer.text
  }

  /** An attachment needs no words; anything else takes words no keyword takes. */
  ghost predicate CanBeSaid(w: Wording, cfg: Settings, step: Step, answer: Answer) {
    answer.Attachment? || exists text :: Stripped(text) && Says(w, step, text, answer) && !Taken(w, cfg, text)
  }

  // --- the theorem -----------------------------------------------------------------

  lemma StoresMeans(w: Wording, cfg: Settings, st: State, input: Input, answer: Answer)
    requires OpenStep(cfg, st).Some?
    ensures Stores(w, cfg, st, input, answer) <==>
      Considered(w, cfg, st, input) && Judge(w, OpenStep(cfg, st).value, input) == Accepted(answer)
  {
    hide ValidateAnswer, MatchesMenuKeyword, MatchesHandoffKeyword, FindFlow, IsBlank, AnswersFileStep, Strip,
      PickFlow, GreetingAndMenu, HandoffMessage, QuestionText, ErrorText, WithHint, NormalizeMedia, CompletionMessage;
    var step := OpenStep(cfg, st).value;
    var verdict := Judge(w, step, input);
    if verdict.Accepted? {
      assert st.collected[step.key := verdict.answer][step.key] == verdict.answer;
      assert st.collected[step.key := answer][step.key] == answer;
    }
  }

  lemma FileStepIsOpen(cfg: Settings, st: State, input: Input)
    requires OpenStep(cfg, st).Some?
    ensures AnswersFileStep(cfg, st, input) <==>
      NormalizeMedia(input.media).Some? && OpenStep(cfg, st).value.kind.FileStep?
  {
    hide FindFlow, NormalizeMedia;
  }

  /** Over everything a customer can send, the answers the open step can store are
      exactly those that fit it and can be said past the keywords. */
  lemma AcceptedAnswersAreTheFittingOnes(w: Wording, cfg: Settings, st: State, answer: Answer)
    requires OpenStep(cfg, st).Some?
    ensures (exists input :: Stores(w, cfg, st, input, answer)) <==>
      Fits(OpenStep(cfg, st).value, answer) && CanBeSaid(w, cfg, OpenStep(cfg, st).value, answer)
  {
    hide Stores, Fits, CanBeSaid, Judge, Considered, OpenStep;
    var step := OpenStep(cfg, st).value;
    if input :| Stores(w, cfg, st, input, answer) {
      StoresMeans(w, cfg, st, input, answer);
      AcceptedFits(w, step, input);
      AcceptedWasSaid(w, cfg, st, input, answer);
    }
    if Fits(step, answer) && CanBeSaid(w, cfg, step, answer) {
      var input := Saying(w, cfg, st, answer);
      StoresMeans(w, cfg, st, input, answer);
    }
  }

  lemma AcceptedWasSaid(w: Wording, cfg: Settings, st: State, input: Input, answer: Answer)
    requires OpenStep(cfg, st).Some? && Considered(w, cfg, st, input)
    requires Judge(w, OpenStep(cfg, st).value, input) == Accepted(answer)
    ensures CanBeSaid(w, cfg, OpenStep(cfg, st).value, answer)
  {
    hide FindFlow, NormalizeMedia, Strip, MatchesMenuKeyword, MatchesHandoffKeyword, AnswersFileStep, EmailShape,
      OnlyDigits, IsSkipWord, OpenStep, AcceptedKinds, ParseNat;
    var step := OpenStep(cfg, st).value;
    var text := Strip(input.message);
    FileStepIsOpen(cfg, st, input);
    StripIsStripped(input.message);
    if !answer.Attachment? {
      assert Says(w, step, text, answer);
    }
  }

  /** How to say it. */
  lemma Saying(w: Wording, cfg: Settings, st: State, answer: Answer) returns (input: Input)
    requires OpenStep(cfg, st).Some?
    requires Fits(OpenStep(cfg, st).value, answer) && CanBeSaid(w, cfg, OpenStep(cfg, st).value, answer)
    ensures Considered(w, cfg, st, input) && Judge(w, OpenStep(cfg, st).value, input) == Accepted(answer)
  {
    hide MatchesMenuKeyword, MatchesHandoffKeyword, Strip, ValidateAnswer, Fits, NormalizeMedia, AnswersFileStep,
      FindFlow;
    var step := OpenStep(cfg, st).value;
    if answer.Attachment? {
      AttachmentIsAccepted(w, step, answer.file);
      var media := FileAsSent(answer.file);
      input := Input("", Some(media));
    } else {
      var text :| Stripped(text) && Says(w, step, text, answer) && !Taken(w, cfg, text);
      var file := FileRef("file", Jpeg, "");
      FileIsKept(file);
      StrippedIsFixed(text);
      input := Input(text, if text == "" then Some(file) else None);
      assert NormalizeMedia(None) == None by { NoFile(); }
      SaidIsAccepted(w, step, text, NormalizeMedia(input.media), answer);
    }
    FileStepIsOpen(cfg, st, input);
  }

  lemma NoFile()
    ensures NormalizeMedia(None) == None
  {
  }

  lemma FileIsKept(file: FileRef)
    requires file == FileRef("file", Jpeg, "")
    ensures NormalizeMedia(Some(file)) == Some(file)
  {
    hide Strip;
    StrippedIsFixed("file");
    StrippedIsFixed("");
  }

  /** A stored reference is what some reference a client can send is reduced to. */
  lemma FileAsSent(file: FileRef) returns (sent: FileRef)
    requires NormalFile(file)
    ensures NormalizeMedia(Some(sent)) == Some(file)
  {
    hide Strip;
    var name := if |file.name| < 200 then file.name else file.name + "x";
    sent := file.(name := name);
    StrippedIsFixed(file.fileId);
    StrippedIsFixed(name);
    assert (file.name + "x")[..|file.name|] == file.name;
  }

  lemma AttachmentIsAccepted(w: Wording, step: Step, file: FileRef)
    requires Fits(step, Attachment(file))
    ensures step.kind.FileStep? && NormalFile(file)
    ensures forall text :: ValidateAnswer(w, step, text, Some(file)) == Accepted(Attachment(file))
  {
    hide AcceptedKinds, NormalFile;
  }

  lemma SaidIsAccepted(w: Wording, step: Step, text: string, media: Option<FileRef>, answer: Answer)
    requires Fits(step, answer) && !answer.Attachment? && Stripped(text) && Says(w, step, text, answer)
    requires media.Some? <==> text == ""
    ensures ValidateAnswer(w, step, text, media) == Accepted(answer)
  {
    hide Strip, OnlyDigits, EmailShape, IsSkipWord, AcceptedKinds, ParseNat;
    StrippedIsFixed(text);
  }

  // --- when keywords leave room ---------------------------------------------------------

  /** The answer has a spelling that is no menu keyword: an attachment needs none, a
      number or a place can be padded beyond every keyword, a text is its own only
      spelling. */
  predicate Unshadowed(w: Wording, cfg: Settings, step: Step, answer: Answer) {
    match answer
    case Attachment(_) => true
    case Skipped => exists i :: 0 <= i < |w.skipWords| && !MatchesMenuKeyword(w, cfg, w.skipWords[i])
    case Words(text) => step.kind.PhoneStep? || step.kind.ChoiceStep? || !MatchesMenuKeyword(w, cfg, text)
  }

  /** Where the owner set no handoff keywords, an answer can be stored exactly when it
      fits and is not shadowed by the menu keywords, of which there always are some. */
  lemma WithoutHandoffKeywordsOnlyMenuWordsShadow(w: Wording, cfg: Settings, st: State, answer: Answer)
    requires OpenStep(cfg, st).Some?
    requires forall i :: 0 <= i < |cfg.handoffKeywords| ==> Strip(cfg.handoffKeywords[i]) == ""
    requires forall i :: 0 <= i < |w.skipWords| ==> w.skipWords[i] != "" && Stripped(w.skipWords[i])
    ensures (exists input :: Stores(w, cfg, st, input, answer)) <==>
      Fits(OpenStep(cfg, st).value, answer) && Unshadowed(w, cfg, OpenStep(cfg, st).value, answer)
  {
    hide Stores, OpenStep, Fits, CanBeSaid, Unshadowed;
    AcceptedAnswersAreTheFittingOnes(w, cfg, st, answer);
    if Fits(OpenStep(cfg, st).value, answer) { SayableUnlessShadowed(w, cfg, OpenStep(cfg, st).value, answer); }
  }

  lemma SayableUnlessShadowed(w: Wording, cfg: Settings, step: Step, answer: Answer)
    requires Fits(step, answer)
    requires forall i :: 0 <= i < |cfg.handoffKeywords| ==> Strip(cfg.handoffKeywords[i]) == ""
    requires forall i :: 0 <= i < |w.skipWords| ==> w.skipWords[i] != "" && Stripped(w.skipWords[i])
    ensures CanBeSaid(w, cfg, step, answer) <==> Unshadowed(w, cfg, step, answer)
  {
    hide Strip, Lower, Decimal, ParseNat, OnlyDigits, AcceptedKinds, EmailShape, MatchesMenuKeyword, Zeros, NormalFile;
    forall text ensures Taken(w, cfg, text) <==> MatchesMenuKeyword(w, cfg, text) { NoHandoff(cfg, text); }
    match step.kind
    case FileStep =>
      if answer.Skipped? { SkipWordsAreAlike(w, cfg, step); }
    case PhoneStep =>
      var m := Longest(MenuKeywords(w, cfg)) + 1;
      var text := Padded('-', m) + answer.text;
      PaddedLaws('-', m);
      OnlyDigitsAreDigits(answer.text);
      assert text[0] == '-' && text[|text| - 1] == answer.text[|answer.text| - 1];
      NotMenu(w, cfg, text);
      assert Says(w, step, text, answer);
    case ChoiceStep =>
      var m := Longest(MenuKeywords(w, cfg)) + 1;
      var i :| 0 <= i < |step.options| && step.options[i] == answer.text;
      var text := Zeros(m) + Decimal(i + 1);
      ZerosParse(m, i + 1);
      ZerosAre(m);
      DigitsAreStripped(text);
      NotMenu(w, cfg, text);
      assert Says(w, step, text, answer);
    case EmailStep =>
      EmailIsStripped(answer.text);
      assert Says(w, step, answer.text, answer);
    case _ =>
      assert Says(w, step, answer.text, answer);
  }

  lemma NoHandoff(cfg: Settings, text: string)
    requires forall i :: 0 <= i < |cfg.handoffKeywords| ==> Strip(cfg.handoffKeywords[i]) == ""
    ensures !MatchesHandoffKeyword(cfg, text)
  {
    hide Strip, Contains;
  }

  /** A skip word can be sent exactly when some word of the list can, in whatever case. */
  lemma SkipWordsAreAlike(w: Wording, cfg: Settings, step: Step)
    requires step.kind.FileStep?
    requires forall i :: 0 <= i < |w.skipWords| ==> w.skipWords[i] != "" && Stripped(w.skipWords[i])
    ensures (exists text :: Stripped(text) && Says(w, step, text, Skipped) && !MatchesMenuKeyword(w, cfg, text)) <==>
      exists i :: 0 <= i < |w.skipWords| && !MatchesMenuKeyword(w, cfg, w.skipWords[i])
  {
    hide Strip, Lower, MatchesMenuKeyword, Stripped;
    if text :| Stripped(text) && Says(w, step, text, Skipped) && !MatchesMenuKeyword(w, cfg, text) {
      var i :| 0 <= i < |w.skipWords| && Lower(text) == Lower(w.skipWords[i]);
      SameCase(w, cfg, text, w.skipWords[i]);
    }
    if i :| 0 <= i < |w.skipWords| && !MatchesMenuKeyword(w, cfg, w.skipWords[i]) {
      assert Says(w, step, w.skipWords[i], Skipped);
    }
  }

  lemma SameCase(w: Wording, cfg: Settings, a: string, b: string)
    requires Stripped(a) && Stripped(b) && Lower(a) == Lower(b)
    ensures MatchesMenuKeyword(w, cfg, a) <==> MatchesMenuKeyword(w, cfg, b)
  {
    hide Strip, Lower, MenuKeywords;
    StrippedIsFixed(a);
    StrippedIsFixed(b);
  }

  lemma EmailIsStripped(s: string)
    requires EmailShape(s)
    ensures Stripped(s)
  {
  }

  // --- choices ---------------------------------------------------------------------------

  function Zeros(m: nat): string { if m == 0 then "" else Zeros(m - 1) + "0" }

  lemma {:induction false} ZerosAre(m: nat)
    ensures |Zeros(m)| == m && forall i :: 0 <= i < m ==> Zeros(m)[i] == '0'
  {
    if m > 0 { ZerosAre(m - 1); }
  }

  lemma {:induction false} NothingButZeros(s: string)
    requires (forall i :: 0 <= i < |s| ==> IsDigit(s[i])) && ParseNat(s) == 0
    ensures s == Zeros(|s|)
  {
    if s != "" {
      assert IsDigit(s[|s| - 1]);
      NothingButZeros(s[..|s| - 1]);
      assert s == s[..|s| - 1] + [s[|s| - 1]];
    }
  }

  /** A digit string is a numeral with zeros in front. */
  lemma {:induction false} NumeralWithZeros(s: string) returns (m: nat)
    requires AllDigits(s) && ParseNat(s) >= 1
    ensures s == Zeros(m) + Decimal(ParseNat(s))
  {
    hide ParseNat, Decimal, Zeros;
    var (front, last) := (s[..|s| - 1], s[|s| - 1]);
    assert IsDigit(last) && s == front + [last];
    assert forall i :: 0 <= i < |front| ==> IsDigit(front[i]);
    OneMoreDigit(front, last);
    LastDigit(ParseNat(s));
    NoDigits();
    if ParseNat(front) == 0 {
      NothingButZeros(front);
      m := |front|;
    } else {
      m := NumeralWithZeros(front);
      assert Zeros(m) + Decimal(ParseNat(front)) + [last] == Zeros(m) + (Decimal(ParseNat(front)) + [last]);
    }
  }

  lemma {:induction false} ZerosParse(m: nat, n: nat)
    ensures var s := Zeros(m) + Decimal(n); AllDigits(s) && ParseNat(s) == n
    decreases n
  {
    hide ParseNat, Decimal, Zeros;
    var d := ('0' as int + n % 10) as char;
    if n >= 10 {
      ZerosParse(m, n / 10);
      OneMoreDigit(Zeros(m) + Decimal(n / 10), d);
      assert Decimal(n) == Decimal(n / 10) + [d] by { LastDigit(n); }
      assert Zeros(m) + Decimal(n) == Zeros(m) + Decimal(n / 10) + [d];
    } else {
      ZerosAreNothing(m);
      OneMoreDigit(Zeros(m), d);
      assert Decimal(n) == [d] by { LastDigit(n); }
    }
  }

  lemma NoDigits()
    ensures ParseNat("") == 0
  {
  }

  lemma LastDigit(n: nat)
    ensures Decimal(n) == (if n < 10 then "" else Decimal(n / 10)) + [('0' as int + n % 10) as char]
  {
  }

  lemma OneMoreDigit(s: string, d: char)
    requires (forall i :: 0 <= i < |s| ==> IsDigit(s[i])) && IsDigit(d)
    ensures AllDigits(s + [d]) && ParseNat(s + [d]) == ParseNat(s) * 10 + (d as int - '0' as int)
  {
    assert (s + [d])[..|s|] == s;
  }

  lemma {:induction false} ZerosAreNothing(m: nat)
    ensures (forall i :: 0 <= i < |Zeros(m)| ==> IsDigit(Zeros(m)[i])) && ParseNat(Zeros(m)) == 0
  {
    if m > 0 {
      ZerosAreNothing(m - 1);
      OneMoreDigit(Zeros(m - 1), '0');
    }
  }

  /** A choice can be made exactly by its own text, if that is no number, or by the
      number of its place, written with any zeros in front, that no keyword takes. */
  lemma ChoiceCanBeSaid(w: Wording, cfg: Settings, step: Step, option: string)
    requires step.kind.ChoiceStep? && option in step.options
    ensures CanBeSaid(w, cfg, step, Words(option)) <==>
      || (Stripped(option) && !AllDigits(option) && !Taken(w, cfg, option))
      || (exists i, m: nat ::
            0 <= i < |step.options| && step.options[i] == option && !Taken(w, cfg, Zeros(m) + Decimal(i + 1)))
  {
    hide Taken, Decimal, ParseNat, Zeros, Stripped;
    if text :| Stripped(text) && Says(w, step, text, Words(option)) && !Taken(w, cfg, text) {
      if AllDigits(text) {
        var m := NumeralWithZeros(text);
        var i := ParseNat(text) - 1;
        assert step.options[i] == option && !Taken(w, cfg, Zeros(m) + Decimal(i + 1));
      }
    }
    if i, m: nat :| 0 <= i < |step.options| && step.options[i] == option && !Taken(w, cfg, Zeros(m) + Decimal(i + 1)) {
      ZerosParse(m, i + 1);
      DigitsAreStripped(Zeros(m) + Decimal(i + 1));
      assert Says(w, step, Zeros(m) + Decimal(i + 1), Words(option));
    }
    if Stripped(option) && !AllDigits(option) && !Taken(w, cfg, option) {
      assert Says(w, step, option, Words(option));
    }
  }

  // --- phone numbers ------------------------------------------------------------------------

  function Folded(keyword: string): string { Lower(Strip(keyword)) }

  /** A handoff keyword that is one digit of the number takes every way to write it. */
  predicate DigitKeyword(cfg: Settings, digits: string) {
    exists i :: 0 <= i < |cfg.handoffKeywords|
      && |Folded(cfg.handoffKeywords[i])| == 1 && Folded(cfg.handoffKeywords[i])[0] in digits
  }

  /** Under validated settings a phone number can be given exactly when no handoff
      keyword is one of its digits: any other keyword is avoided by putting some
      character that no keyword has between the digits. */
  lemma PhoneCanBeSaid(w: Wording, cfg: Settings, step: Step, digits: string)
    requires SettingsBounds(cfg) && step.kind.PhoneStep? && AllDigits(digits)
    ensures CanBeSaid(w, cfg, step, Words(digits)) <==> !DigitKeyword(cfg, digits)
  {
    hide Strip, Lower, OnlyDigits, MenuKeywords, SettingsBounds;
    if DigitKeyword(cfg, digits) {
      var i :| 0 <= i < |cfg.handoffKeywords|
        && |Folded(cfg.handoffKeywords[i])| == 1 && Folded(cfg.handoffKeywords[i])[0] in digits;
      forall text | Says(w, step, text, Words(digits)) ensures Taken(w, cfg, text) {
        DigitIsThere(text, Folded(cfg.handoffKeywords[i])[0]);
        assert Folded(cfg.handoffKeywords[i]) == [Folded(cfg.handoffKeywords[i])[0]];
        assert Contains(Lower(text), Folded(cfg.handoffKeywords[i]));
      }
    } else {
      var c := UnusedChar(cfg);
      var m := Longest(MenuKeywords(w, cfg)) + 1;
      var text := Padded(c, m) + Spread(c, digits);
      SpreadLaws(c, m, digits);
      assert Says(w, step, text, Words(digits));
      NotHandedOff(cfg, c, text, digits);
      NotMenu(w, cfg, text);
    }
  }

  lemma {:induction false} DigitIsThere(text: string, d: char)
    requires d in OnlyDigits(text) && IsDigit(d)
    ensures Contains(Lower(text), [d])
  {
    var p := DigitAt(text, d);
    LowerAt(text);
    assert Lower(text)[p..][0] == d;
    assert [d] <= Lower(text)[p..];
  }

  lemma {:induction false} DigitAt(text: string, d: char) returns (p: nat)
    requires d in OnlyDigits(text)
    ensures p < |text| && text[p] == d
  {
    if IsDigit(text[0]) && text[0] == d {
      p := 0;
    } else {
      p := DigitAt(text[1..], d);
      p := p + 1;
    }
  }

  // A character no keyword has.

  const FIRST_SPARE: int := 0x4E00
  const SPARE_CHARS: nat := 1201

  function Spare(i: nat): char
    requires i < SPARE_CHARS
  {
    (FIRST_SPARE + i) as char
  }

  ghost function CharsOf(s: string): set<char> { set i | 0 <= i < |s| :: s[i] }

  ghost function UsedChars(keywords: seq<string>): set<char> {
    if keywords == [] then {}
    else UsedChars(keywords[..|keywords| - 1]) + CharsOf(Folded(keywords[|keywords| - 1]))
  }

  lemma {:induction false} FewChars(s: string)
    ensures |CharsOf(s)| <= |s|
  {
    if s != "" {
      FewChars(s[..|s| - 1]);
      assert CharsOf(s) == CharsOf(s[..|s| - 1]) + {s[|s| - 1]};
    }
  }

  lemma {:induction false} FewUsed(keywords: seq<string>)
    requires forall i :: 0 <= i < |keywords| ==> |keywords[i]| <= 40
    ensures |UsedChars(keywords)| <= 40 * |keywords|
    ensures forall i, p :: 0 <= i < |keywords| && 0 <= p < |Folded(keywords[i])| ==>
      Folded(keywords[i])[p] in UsedChars(keywords)
  {
    hide Folded;
    if keywords != [] {
      var (front, last) := (keywords[..|keywords| - 1], keywords[|keywords| - 1]);
      FewUsed(front);
      FewChars(Folded(last));
      FoldedIsShort(last);
      forall i, p | 0 <= i < |keywords| && 0 <= p < |Folded(keywords[i])|
        ensures Folded(keywords[i])[p] in UsedChars(keywords)
      {
        if i < |front| { assert keywords[i] == front[i]; }
      }
    }
  }

  lemma FoldedIsShort(keyword: string)
    ensures |Folded(keyword)| <= |keyword|
  {
    hide Strip;
    StripIsStripped(keyword);
    LowerAt(Strip(keyword));
  }

  lemma {:induction false} AllSparesUsed(used: set<char>, n: nat)
    requires n <= SPARE_CHARS && forall i :: 0 <= i < n ==> Spare(i) in used
    ensures n <= |used|
  {
    if n > 0 {
      AllSparesUsed(used - {Spare(n - 1)}, n - 1);
    }
  }

  lemma UnusedChar(cfg: Settings) returns (c: char)
    requires SettingsBounds(cfg)
    ensures !IsDigit(c) && !IsSpace(c) && LowerChar(c) == c
    ensures forall i, p :: 0 <= i < |cfg.handoffKeywords| && 0 <= p < |Folded(cfg.handoffKeywords[i])| ==>
      Folded(cfg.handoffKeywords[i])[p] != c
  {
    hide Folded, FlowsBounds, ProfileBounds;
    FewUsed(cfg.handoffKeywords);
    var used := UsedChars(cfg.handoffKeywords);
    if forall i :: 0 <= i < SPARE_CHARS ==> Spare(i) in used { AllSparesUsed(used, SPARE_CHARS); }
    var i :| 0 <= i < SPARE_CHARS && Spare(i) !in used;
    c := Spare(i);
  }

  // The number spread out between such characters.

  function Padded(c: char, m: nat): string { if m == 0 then "" else [c] + Padded(c, m - 1) }

  function Spread(c: char, digits: string): string {
    if digits == "" then "" else [digits[0], c] + Spread(c, digits[1..])
  }

  lemma {:induction false} PaddedLaws(c: char, m: nat)
    requires !IsDigit(c)
    ensures |Padded(c, m)| == m && (forall i :: 0 <= i < m ==> Padded(c, m)[i] == c)
    ensures forall rest :: OnlyDigits(Padded(c, m) + rest) == OnlyDigits(rest)
  {
    if m > 0 {
      PaddedLaws(c, m - 1);
      forall rest ensures OnlyDigits(Padded(c, m) + rest) == OnlyDigits(rest) {
        assert (Padded(c, m) + rest)[1..] == Padded(c, m - 1) + rest;
      }
    } else {
      forall rest ensures OnlyDigits(Padded(c, m) + rest) == OnlyDigits(rest) {
        assert Padded(c, m) + rest == rest;
      }
    }
  }

  lemma {:induction false} SpreadIs(c: char, digits: string)
    requires !IsDigit(c) && forall i :: 0 <= i < |digits| ==> IsDigit(digits[i])
    ensures |Spread(c, digits)| == 2 * |digits|
    ensures forall i :: 0 <= i < |digits| ==> Spread(c, digits)[2 * i] == digits[i] && Spread(c, digits)[2 * i + 1] == c
    ensures OnlyDigits(Spread(c, digits)) == digits
  {
    hide OnlyDigits;
    if digits == "" {
      NoneSpread(c);
    } else {
      var (s, rest) := (Spread(c, digits), Spread(c, digits[1..]));
      SpreadIs(c, digits[1..]);
      assert s == [digits[0], c] + rest;
      DigitThenOther(digits[0], c, rest);
      forall i | 0 <= i < |digits| ensures s[2 * i] == digits[i] && s[2 * i + 1] == c {
        if i > 0 {
          assert s[2 * i] == rest[2 * (i - 1)] && s[2 * i + 1] == rest[2 * (i - 1) + 1];
        }
      }
    }
  }

  lemma NoneSpread(c: char)
    ensures Spread(c, "") == "" && OnlyDigits("") == ""
  {
  }

  lemma DigitThenOther(d: char, c: char, rest: string)
    requires IsDigit(d) && !IsDigit(c)
    ensures OnlyDigits([d, c] + rest) == [d] + OnlyDigits(rest)
  {
    assert ([d, c] + rest)[1..] == [c] + rest && ([c] + rest)[1..] == rest;
  }

  lemma SpreadLaws(c: char, m: nat, digits: string)
    requires m > 0 && AllDigits(digits) && !IsDigit(c) && !IsSpace(c) && LowerChar(c) == c
    ensures
      var text := Padded(c, m) + Spread(c, digits);
      && Stripped(text) && |text| >= m && OnlyDigits(text) == digits && Lower(text) == text
      && (forall p :: 0 <= p < |text| ==> text[p] == c || text[p] in digits)
      && (forall p :: 0 <= p < |text| - 1 ==> text[p] == c || text[p + 1] == c)
  {
    hide OnlyDigits, Lower, Padded, Spread;
    var text := Padded(c, m) + Spread(c, digits);
    PaddedLaws(c, m);
    SpreadIs(c, digits);
    LowerAt(text);
    var n := |digits|;
    assert text[0] == c;
    assert text[|text| - 1] == Spread(c, digits)[2 * (n - 1) + 1];
    forall p | 0 <= p < |text|
      ensures text[p] == c || text[p] in digits
      ensures p < |text| - 1 ==> text[p] == c || text[p + 1] == c
    {
      if p >= m {
        var k := p - m;
        assert text[p] == Spread(c, digits)[k];
        assert k == 2 * (k / 2) || k == 2 * (k / 2) + 1;
        if k == 2 * (k / 2) {
          assert text[p] == digits[k / 2] && text[p + 1] == Spread(c, digits)[2 * (k / 2) + 1];
        }
      }
    }
    assert Lower(text) == text;
  }

  lemma NotHandedOff(cfg: Settings, c: char, text: string, digits: string)
    requires forall i, p :: 0 <= i < |cfg.handoffKeywords| && 0 <= p < |Folded(cfg.handoffKeywords[i])| ==>
      Folded(cfg.handoffKeywords[i])[p] != c
    requires Lower(text) == text && !DigitKeyword(cfg, digits)
    requires forall p :: 0 <= p < |text| ==> text[p] == c || text[p] in digits
    requires forall p :: 0 <= p < |text| - 1 ==> text[p] == c || text[p + 1] == c
    ensures !MatchesHandoffKeyword(cfg, text)
  {
    hide Lower, Strip;
    forall i | 0 <= i < |cfg.handoffKeywords| && Lower(Strip(cfg.handoffKeywords[i])) != ""
      ensures !Contains(text, Lower(Strip(cfg.handoffKeywords[i])))
    {
      var k := Folded(cfg.handoffKeywords[i]);
      forall at | 0 <= at <= |text| ensures !(k <= text[at..]) { NotAt(k, c, text, digits, at); }
    }
  }

  lemma NotAt(k: string, c: char, text: string, digits: string, at: nat)
    requires k != "" && at <= |text| && !(|k| == 1 && k[0] in digits)
    requires forall p :: 0 <= p < |k| ==> k[p] != c
    requires forall p :: 0 <= p < |text| ==> text[p] == c || text[p] in digits
    requires forall p :: 0 <= p < |text| - 1 ==> text[p] == c || text[p + 1] == c
    ensures !(k <= text[at..])
  {
    if at < |text| {
      assert text[at..][0] == text[at];
      if at + 1 < |text| { assert text[at..][1] == text[at + 1]; }
    }
  }

  function Longest(keywords: seq<string>): (n: nat) {
    if keywords == [] then 0
    else
      var before := Longest(keywords[..|keywords| - 1]);
      if |keywords[|keywords| - 1]| > before then |keywords[|keywords| - 1]| else before
  }

  lemma {:induction false} LongestIs(keywords: seq<string>, i: nat)
    requires i < |keywords|
    ensures |keywords[i]| <= Longest(keywords)
  {
    if i < |keywords| - 1 { LongestIs(keywords[..|keywords| - 1], i); }
  }

  lemma NotMenu(w: Wording, cfg: Settings, text: string)
    requires Stripped(text) && |text| > Longest(MenuKeywords(w, cfg))
    ensures !MatchesMenuKeyword(w, cfg, text)
  {
    hide Lower, Strip, MenuKeywords;
    StrippedIsFixed(text);
    LowerAt(text);
    forall i | 0 <= i < |MenuKeywords(w, cfg)| ensures Lower(Strip(text)) != Lower(Strip(MenuKeywords(w, cfg)[i])) {
      FoldedIsShort(MenuKeywords(w, cfg)[i]);
      LongestIs(MenuKeywords(w, cfg), i);
    }
  }
}
