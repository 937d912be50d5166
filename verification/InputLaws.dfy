/** How a customer's message is read: which texts are keywords, skip words, email
    addresses and picks, in terms of their characters. */
module InputLaws {
  import opened Wrappers
  import opened BotModel
  import opened OrderedDict
  import opened Text
  import opened BotEngine
  import opened EngineLaws

  // --- letters -----------------------------------------------------------------------

  /** The control characters from tab to carriage return, and the space. */
  lemma SpacesAre(c: char)
    ensures IsSpace(c) <==> 9 <= c as int <= 13 || c as int == 32
  {
  }

  /** The same character, or the two cases of one ASCII letter. */
  predicate SameLetter(c: char, d: char) {
    || c == d
    || (65 <= c as int <= 90 && d as int == c as int + 32)
    || (65 <= d as int <= 90 && c as int == d as int + 32)
  }

  predicate SameLetters(a: string, b: string) {
    |a| == |b| && forall i :: 0 <= i < |a| ==> SameLetter(a[i], b[i])
  }

  lemma LowerCharMeans(c: char, d: char)
    ensures LowerChar(c) == LowerChar(d) <==> SameLetter(c, d)
  {
  }

  lemma LowerMeans(a: string, b: string)
    ensures Lower(a) == Lower(b) <==> SameLetters(a, b)
    ensures Lower(a) == "" <==> a == ""
  {
    hide Lower, LowerChar, SameLetter;
    LowerAt(a);
    LowerAt(b);
    if |a| == |b| {
      forall i | 0 <= i < |a| ensures Lower(a)[i] == Lower(b)[i] <==> SameLetter(a[i], b[i]) {
        LowerCharMeans(a[i], b[i]);
      }
    }
  }

  /** One text holds another, ignoring case. */
  ghost predicate Holds(text: string, word: string) {
    exists from, to :: 0 <= from <= to <= |text| && SameLetters(text[from..to], word)
  }

  lemma LowerSlice(s: string, from: nat, to: nat)
    requires from <= to <= |s|
    ensures |Lower(s)| == |s| && Lower(s)[from..to] == Lower(s[from..to])
  {
    hide LowerChar;
    LowerAt(s);
    LowerAt(s[from..to]);
  }

  lemma ContainsMeans(text: string, word: string)
    ensures Contains(Lower(text), Lower(word)) <==> Holds(text, word)
  {
    hide Lower, SameLetters;
    LowerAt(text);
    LowerAt(word);
    if Contains(Lower(text), Lower(word)) {
      var i :| 0 <= i <= |Lower(text)| && Lower(word) <= Lower(text)[i..];
      assert Lower(text)[i..][..|word|] == Lower(text)[i..i + |word|];
      LowerSlice(text, i, i + |word|);
      LowerMeans(text[i..i + |word|], word);
    }
    if Holds(text, word) {
      var from, to :| 0 <= from <= to <= |text| && SameLetters(text[from..to], word);
      LowerSlice(text, from, to);
      LowerMeans(text[from..to], word);
      assert Lower(word) <= Lower(text)[from..] by { assert Lower(text)[from..][..to - from] == Lower(text)[from..to]; }
    }
  }

  // --- keywords ------------------------------------------------------------------------

  /** The whole message is one of the owner's menu words, or of the stock ones where
      the owner has none. */
  lemma MenuWordIs(w: Wording, cfg: Settings, text: string)
    ensures
      var words := if cfg.profile.menuKeywords == [] then w.defaultMenuKeywords else cfg.profile.menuKeywords;
      MatchesMenuKeyword(w, cfg, text) <==>
        exists i :: 0 <= i < |words| && Strip(words[i]) != "" && SameLetters(Strip(text), Strip(words[i]))
  {
    hide Strip, Lower, SameLetters;
    var words := MenuKeywords(w, cfg);
    forall i | 0 <= i < |words|
      ensures Lower(Strip(words[i])) == "" <==> Strip(words[i]) == ""
      ensures Lower(Strip(text)) == Lower(Strip(words[i])) <==> SameLetters(Strip(text), Strip(words[i]))
    {
      LowerMeans(Strip(text), Strip(words[i]));
      LowerMeans(Strip(words[i]), Strip(words[i]));
    }
  }

  /** The message holds one of the owner's handoff words. */
  lemma HandoffWordIs(cfg: Settings, text: string)
    ensures MatchesHandoffKeyword(cfg, text) <==>
      exists i :: 0 <= i < |cfg.handoffKeywords| &&
        Strip(cfg.handoffKeywords[i]) != "" && Holds(text, Strip(cfg.handoffKeywords[i]))
  {
    hide Strip, Lower, Holds, Contains;
    var words := cfg.handoffKeywords;
    forall i | 0 <= i < |words|
      ensures Lower(Strip(words[i])) == "" <==> Strip(words[i]) == ""
      ensures Contains(Lower(text), Lower(Strip(words[i]))) <==> Holds(text, Strip(words[i]))
    {
      LowerMeans(Strip(words[i]), Strip(words[i]));
      ContainsMeans(text, Strip(words[i]));
    }
  }

  /** The message is one of the skip words. */
  lemma SkipWordIs(w: Wording, text: string)
    ensures IsSkipWord(w, text) <==> exists i :: 0 <= i < |w.skipWords| && SameLetters(text, w.skipWords[i])
  {
    hide Lower, SameLetters;
    forall i | 0 <= i < |w.skipWords|
      ensures Lower(text) == Lower(w.skipWords[i]) <==> SameLetters(text, w.skipWords[i])
    {
      LowerMeans(text, w.skipWords[i]);
    }
  }

  // --- email addresses -------------------------------------------------------------------

  /** Text without white space or an at sign. */
  predicate Plain(s: string) { s != "" && forall i :: 0 <= i < |s| ==> s[i] != '@' && !IsSpace(s[i]) }

  ghost predicate PlainBut(s: string, at: nat) {
    forall k :: 0 <= k < |s| && k != at ==> s[k] != '@' && !IsSpace(s[k])
  }

  lemma PlainSlice(s: string, at: nat, from: nat, to: nat)
    requires from < to <= |s| && !(from <= at < to)
    requires PlainBut(s, at)
    ensures Plain(s[from..to])
  {
    hide IsSpace;
    forall i | 0 <= i < to - from ensures s[from..to][i] != '@' && !IsSpace(s[from..to][i]) {
      assert s[from..to][i] == s[from + i];
    }
  }

  /** A name, an at sign, a host, a dot and an ending. */
  ghost predicate Address(s: string) {
    exists name, host, ending ::
      Plain(name) && Plain(host) && Plain(ending) && s == name + "@" + host + "." + ending
  }

  lemma EmailIs(s: string)
    ensures EmailShape(s) <==> Address(s)
  {
    hide EmailShape, Plain;
    if EmailShape(s) { ShapeIsAddress(s); }
    if Address(s) {
      var name, host, ending :| Plain(name) && Plain(host) && Plain(ending) && s == name + "@" + host + "." + ending;
      AddressShape(name, host, ending);
    }
  }

  lemma ShapeIsAddress(s: string)
    requires EmailShape(s)
    ensures Address(s)
  {
    hide EmailShape, PlainBut, Plain;
    var at, dot := Positions(s);
    PlainSlice(s, at, 0, at);
    PlainSlice(s, at, at + 1, dot);
    PlainSlice(s, at, dot + 1, |s|);
    Reassembled(s, at, dot);
  }

  lemma Positions(s: string) returns (at: nat, dot: nat)
    requires EmailShape(s)
    ensures 0 < at && at + 1 < dot < |s| - 1 && s[at] == '@' && s[dot] == '.' && PlainBut(s, at)
  {
    hide IsSpace;
    at, dot :| 0 < at < |s| && at + 1 < dot < |s| - 1 && s[at] == '@' && s[dot] == '.' &&
      forall k :: 0 <= k < |s| && k != at ==> s[k] != '@' && !IsSpace(s[k]);
  }

  lemma Reassembled(s: string, at: nat, dot: nat)
    requires at < dot < |s| && s[at] == '@' && s[dot] == '.'
    ensures s == s[0..at] + "@" + s[at + 1..dot] + "." + s[dot + 1..|s|]
  {
    assert s == s[0..at] + ([s[at]] + s[at + 1..]);
    assert s[at + 1..] == s[at + 1..dot] + ([s[dot]] + s[dot + 1..|s|]);
    assert [s[at]] == "@" && [s[dot]] == ".";
  }

  lemma AddressShape(name: string, host: string, ending: string)
    requires Plain(name) && Plain(host) && Plain(ending)
    ensures EmailShape(name + "@" + host + "." + ending)
  {
    var s := name + "@" + host + "." + ending;
    var (at, dot) := (|name|, |name| + 1 + |host|);
    assert s[at] == '@' && s[dot] == '.';
    forall k | 0 <= k < |s| && k != at ensures s[k] != '@' && !IsSpace(s[k]) {
      if k < at { assert s[k] == name[k]; }
      else if k < dot { assert s[k] == host[k - at - 1]; }
      else if k > dot { assert s[k] == ending[k - dot - 1]; }
    }
  }

  // --- picks -------------------------------------------------------------------------------

  /** A flow whose label holds the text or is held by it. */
  ghost predicate Answers(text: string, flow: Flow) {
    Strip(flow.labelText) != "" && (Holds(text, Strip(flow.labelText)) || Holds(Strip(flow.labelText), text))
  }

  /** A number picks the flow at that place; any other text the first flow whose label
      it answers. */
  lemma PickIs(text: string, flows: Dict<Flow>, i: nat)
    ensures PickFlow(text, flows) == Some(i) <==>
      var value := Strip(text);
      && value != "" && i < |flows|
      && (if AllDigits(value) then ParseNat(value) == i + 1
          else Answers(value, flows[i].1) && forall j :: 0 <= j < i ==> !Answers(value, flows[j].1))
  {
    hide Strip, Lower, Contains, Holds, ParseNat, MatchLabel, AllDigits;
    var value := Strip(text);
    forall j | 0 <= j < |flows| ensures LabelMatches(Lower(value), flows[j].1) <==> Answers(value, flows[j].1) {
      var shown := Strip(flows[j].1.labelText);
      LowerMeans(shown, shown);
      ContainsMeans(value, shown);
      ContainsMeans(shown, value);
    }
    LabelPicksFirstMatch(Lower(value), flows, 0, i);
  }
}
