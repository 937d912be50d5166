/** The engine's scans over flows and keywords, as the loops they are, proved
    against the functions the engine's laws speak of. */
module EngineLoops {
  import opened Wrappers
  import opened BotModel
  import opened OrderedDict
  import opened Text
  import opened BotEngine

  method FlowNamed(flows: Dict<Flow>, name: Option<string>) returns (r: Option<Flow>)
    ensures r == FindFlow(flows, name)
  {
    if name.GetOr("") == "" { return None; }
    for i := 0 to |flows|
      invariant Get(flows, name.value) == Get(flows[i..], name.value)
    {
      if flows[i].0 == name.value { return Some(flows[i].1); }
      assert flows[i..][1..] == flows[i + 1..];
    }
    return None;
  }

  method PickFlowAt(text: string, flows: Dict<Flow>) returns (r: Option<nat>)
    ensures r == PickFlow(text, flows)
  {
    var value := Strip(text);
    if value == "" { return None; }
    if AllDigits(value) {
      var idx := ParseNat(value) - 1;
      return if 0 <= idx < |flows| then Some(idx) else None;
    }
    var low := Lower(value);
    for i := 0 to |flows|
      invariant MatchLabel(low, flows, 0) == MatchLabel(low, flows, i)
    {
      var shown := Lower(Strip(flows[i].1.labelText));
      if shown != "" && (Contains(low, shown) || Contains(shown, low)) { return Some(i); }
    }
    return None;
  }

  method MenuListText(flows: Dict<Flow>) returns (text: string)
    ensures text == MenuList(flows)
  {
    hide Strip, Decimal, Join;
    var lines: seq<string> := [];
    for i := 0 to |flows|
      invariant MenuLines(flows, 0) == lines + MenuLines(flows, i)
    {
      var shown := Strip(flows[i].1.labelText);
      lines := lines + [Decimal(i + 1) + ". " + (if shown == "" then flows[i].0 else shown)];
    }
    assert lines + [] == lines;
    return Join(lines, "\n");
  }

  method IsMenuKeyword(w: Wording, cfg: Settings, text: string) returns (r: bool)
    ensures r == MatchesMenuKeyword(w, cfg, text)
  {
    hide Strip, Lower, MenuKeywords;
    var keywords := MenuKeywords(w, cfg);
    var low := Lower(Strip(text));
    for i := 0 to |keywords|
      invariant forall j :: 0 <= j < i ==> Lower(Strip(keywords[j])) == "" || low != Lower(Strip(keywords[j]))
    {
      var k := Lower(Strip(keywords[i]));
      if k != "" && low == k { return true; }
    }
    return false;
  }

  method IsHandoffKeyword(cfg: Settings, text: string) returns (r: bool)
    ensures r == MatchesHandoffKeyword(cfg, text)
  {
    var low := Lower(text);
    for i := 0 to |cfg.handoffKeywords|
      invariant forall j :: 0 <= j < i ==>
        Lower(Strip(cfg.handoffKeywords[j])) == "" || !Contains(low, Lower(Strip(cfg.handoffKeywords[j])))
    {
      var k := Lower(Strip(cfg.handoffKeywords[i]));
      if k != "" && Contains(low, k) { return true; }
    }
    return false;
  }
}
