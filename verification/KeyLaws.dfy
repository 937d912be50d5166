/** The keys the builder hands out, in terms of the names they are made from, and
    what the flows and steps of a change become. */
module KeyLaws {
  import opened OrderedDict
  import opened Text
  import opened BotConfig
  import opened BotBuilder
  import opened BuilderLaws
  import opened StepKeyLaws

  // --- the text of a key ----------------------------------------------------------------

  /** A character that ends up as an underscore. */
  predicate Separator(c: char) { c == '_' || !KeyChar(c) }

  predicate Edge(c: char) { c == ' ' || Separator(c) }

  /** A separator with another right after it. */
  ghost predicate Doubled(t: string, p: int)
    requires 0 <= p < |t|
  {
    p + 1 < |t| && Separator(t[p]) && Separator(t[p + 1])
  }

  /** `at` names the characters of `t` a key is made of: of a run of separators the
      last, none of the separators and spaces at the two ends, and all others. */
  ghost predicate MadeFrom(key: string, t: string, at: seq<int>) {
    && |at| == |key|
    && (forall k :: 0 <= k < |at| ==> 0 <= at[k] < |t| && key[k] == if Separator(t[at[k]]) then '_' else t[at[k]])
    && (forall k, l :: 0 <= k < l < |at| ==> at[k] < at[l])
    && (forall p :: 0 <= p < |t| && p in at ==> !Doubled(t, p))
    && (forall p :: 0 <= p < |t| && p !in at ==> Doubled(t, p) || OutsideEdge(t, p, at))
    && (key != "" ==> !Edge(t[at[0]]) && !Edge(t[at[|at| - 1]]))
  }

  ghost predicate OutsideEdge(t: string, p: int, at: seq<int>)
    requires 0 <= p < |t|
  {
    Edge(t[p]) && ((forall k :: 0 <= k < |at| ==> p < at[k]) || (forall k :: 0 <= k < |at| ==> at[k] < p))
  }

  ghost predicate CollapsedAt(s: string, at: seq<int>) {
    && |at| == |Collapse(s)|
    && (forall k :: 0 <= k < |at| ==> 0 <= at[k] < |s| && Collapse(s)[k] == s[at[k]])
    && (forall k, l :: 0 <= k < l < |at| ==> at[k] < at[l])
    && (forall p :: 0 <= p < |s| ==> (p in at <==> !Repeated(s, p)))
  }

  predicate Repeated(s: string, p: int) { 0 <= p < |s| - 1 && s[p] == '_' && s[p + 1] == '_' }

  lemma {:induction false} CollapsePositions(s: string) returns (at: seq<int>)
    ensures CollapsedAt(s, at)
  {
    hide CollapsedAt, Repeated;
    if s == "" {
      at := [];
      NothingCollapsed();
    } else {
      var rest := CollapsePositions(s[1..]);
      var moved := seq(|rest|, k requires 0 <= k < |rest| => rest[k] + 1);
      MovedBy1(rest, moved);
      at := if |s| >= 2 && s[0] == '_' && s[1] == '_' then moved else [0] + moved;
      MoreCollapsed(s, rest, moved, at);
    }
  }

  lemma NothingCollapsed()
    ensures CollapsedAt("", [])
  {
  }

  lemma MoreCollapsed(s: string, rest: seq<int>, moved: seq<int>, at: seq<int>)
    requires s != "" && CollapsedAt(s[1..], rest)
    requires |moved| == |rest| && forall k :: 0 <= k < |rest| ==> moved[k] == rest[k] + 1
    requires forall p :: p in moved <==> p - 1 in rest
    requires at == if |s| >= 2 && s[0] == '_' && s[1] == '_' then moved else [0] + moved
    ensures CollapsedAt(s, at)
  {
    hide Repeated;
    assert forall k :: 0 <= k < |moved| ==> s[1..][rest[k]] == s[moved[k]];
    forall p | 0 <= p < |s| ensures p in at <==> !Repeated(s, p) {
      assert p in at <==> (p == 0 && !Repeated(s, 0)) || p in moved by { FirstStays(s); }
      if p > 0 { RepeatedLater(s, p); }
    }
  }

  lemma FirstStays(s: string)
    ensures Repeated(s, 0) <==> |s| >= 2 && s[0] == '_' && s[1] == '_'
  {
  }

  lemma RepeatedLater(s: string, p: nat)
    requires 0 < p < |s|
    ensures Repeated(s, p) == Repeated(s[1..], p - 1)
  {
  }

  lemma MovedBy1(rest: seq<int>, moved: seq<int>)
    requires |moved| == |rest| && forall k :: 0 <= k < |rest| ==> moved[k] == rest[k] + 1
    ensures forall p :: p in moved <==> p - 1 in rest
  {
    forall p ensures p in moved <==> p - 1 in rest {
      if p - 1 in rest {
        var k :| 0 <= k < |rest| && rest[k] == p - 1;
        assert moved[k] == p;
      }
    }
  }

  lemma {:induction false} UnderscoredIs(s: string)
    ensures |Underscored(s)| == |s|
    ensures forall i :: 0 <= i < |s| ==> Underscored(s)[i] == if Separator(s[i]) then '_' else s[i]
  {
    hide KeyChar;
    if s != "" { UnderscoredIs(s[1..]); }
  }

  /** Before it is cut, a key is made of the characters of the name, stripped and
      lowered, in their order. */
  lemma KeyIsMadeFrom(name: string)
    ensures exists at :: MadeFrom(SlugBody(name), Lower(Strip(name)), at)
  {
    hide Lower, Strip, Trim, Collapse, Underscored, KeyChar;
    var t := Lower(Strip(name));
    var u := Underscored(t);
    UnderscoredIs(t);
    var all := CollapsePositions(u);
    var i, j := TrimIsSlice(Collapse(u), EDGES);
    SliceIsMade(t, u, all, i, j);
    assert MadeFrom(SlugBody(name), t, all[i..j]);
  }

  lemma InSlice(all: seq<int>, i: nat, j: nat, k: nat)
    requires i <= j <= |all| && k < |all|
    ensures i <= k < j ==> all[k] in all[i..j]
  {
    if i <= k < j { assert all[i..j][k - i] == all[k]; }
  }

  /** What `Underscored` makes of a text. */
  ghost predicate Swapped(u: string, t: string) {
    |u| == |t| && forall k :: 0 <= k < |t| ==> u[k] == if Separator(t[k]) then '_' else t[k]
  }

  /** A trimmed-off position is at the edge. */
  lemma CutOff(t: string, u: string, all: seq<int>, i: nat, j: nat, k: nat)
    requires Swapped(u, t) && CollapsedAt(u, all) && i <= j <= |all| && (k < i || j <= k < |all|)
    requires MadeOf(Collapse(u)[..i], EDGES) && MadeOf(Collapse(u)[j..], EDGES)
    ensures OutsideEdge(t, all[k], all[i..j])
  {
    hide Collapse, KeyChar, Repeated;
    assert u[all[k]] in EDGES by {
      if k < i { assert Collapse(u)[..i][k] in EDGES; } else { assert Collapse(u)[j..][k - j] in EDGES; }
    }
    assert Edge(t[all[k]]);
    var at := all[i..j];
    forall l | 0 <= l < |at| ensures if k < i then all[k] < at[l] else at[l] < all[k] {
      assert at[l] == all[i + l];
    }
  }

  lemma RepeatedIsDoubled(t: string, u: string, p: nat)
    requires Swapped(u, t) && p < |t|
    ensures Repeated(u, p) == Doubled(t, p)
  {
    hide KeyChar;
  }

  lemma SliceIsMade(t: string, u: string, all: seq<int>, i: nat, j: nat)
    requires Swapped(u, t) && CollapsedAt(u, all) && i <= j <= |all|
    requires MadeOf(Collapse(u)[..i], EDGES) && MadeOf(Collapse(u)[j..], EDGES) && Trimmed(Collapse(u)[i..j], EDGES)
    ensures MadeFrom(Collapse(u)[i..j], t, all[i..j])
  {
    hide Collapse, KeyChar, Repeated, Doubled, OutsideEdge;
    var (key, at) := (Collapse(u)[i..j], all[i..j]);
    forall p | 0 <= p < |t| && p !in at ensures Doubled(t, p) || OutsideEdge(t, p, at) {
      RepeatedIsDoubled(t, u, p);
      if p in all {
        var k :| 0 <= k < |all| && all[k] == p;
        InSlice(all, i, j, k);
        CutOff(t, u, all, i, j, k);
      }
    }
    forall p | 0 <= p < |t| && p in at ensures !Doubled(t, p) {
      RepeatedIsDoubled(t, u, p);
      assert p in all;
    }
  }

  /** A key is the uncut one up to its fortieth character, and "flow" where nothing
      is left, which is where the name has only separators and spaces. */
  lemma KeyIsCut(name: string)
    ensures SlugBody(name) == "" ==> SlugifyKey(name) == "flow"
    ensures 1 <= |SlugBody(name)| <= 40 ==> SlugifyKey(name) == SlugBody(name)
    ensures |SlugBody(name)| > 40 ==> |SlugifyKey(name)| == 40 && SlugifyKey(name) <= SlugBody(name)
    ensures var t := Lower(Strip(name)); SlugBody(name) == "" <==> forall i :: 0 <= i < |t| ==> Edge(t[i])
  {
    hide SlugBody, Lower, Strip, MadeFrom, Edge;
    KeyIsMadeFrom(name);
    var t := Lower(Strip(name));
    var at :| MadeFrom(SlugBody(name), t, at);
    NothingLeft(SlugBody(name), t, at);
  }

  lemma NothingLeft(key: string, t: string, at: seq<int>)
    requires MadeFrom(key, t, at)
    ensures key == "" <==> forall i :: 0 <= i < |t| ==> Edge(t[i])
  {
    hide KeyChar;
    if key == "" {
      forall i | 0 <= i < |t| ensures Edge(t[i]) { assert i !in at; }
    }
  }

  // --- the names handed out ------------------------------------------------------------------

  /** The key of the name, or, where that is taken, the key with the first free number
      from 2 on. */
  ghost predicate Named(raw: string, taken: set<string>, name: string) {
    var slug := SlugifyKey(raw);
    if slug !in taken then name == slug
    else
      exists k: nat :: k >= 2 && name == slug + "_" + Decimal(k) && name !in taken &&
        forall j: nat :: 2 <= j < k ==> slug + "_" + Decimal(j) in taken
  }

  lemma FreshIsNamed(raw: string, taken: set<string>)
    ensures Named(raw, taken, FreshName(SlugifyKey(raw), taken))
  {
    hide SlugifyKey, Decimal;
    var slug := SlugifyKey(raw);
    if slug in taken {
      var k := FreeIndex(slug, taken, 2);
      forall j: nat | 2 <= j < k ensures slug + "_" + Decimal(j) in taken { assert Suffixed(slug, j) in taken; }
    }
  }

  function ObjectNames(flows: Dict<RawEntry>): seq<string> {
    if flows == [] then []
    else ObjectNames(flows[..|flows| - 1]) + (if flows[|flows| - 1].1.FlowObj? then [flows[|flows| - 1].0] else [])
  }

  /** Each flow comes under the key of its own name, told apart only from the flows
      before it. */
  lemma {:induction false} FlowsAreNamed(flows: Dict<RawEntry>)
    ensures var out := BuildFlows(flows).out;
      && |out| == |ObjectNames(flows)|
      && forall i :: 0 <= i < |out| ==> Named(ObjectNames(flows)[i], Keys(out[..i]), out[i].0)
  {
    hide Named, SlugifyKey, FreshName, CleanFlow;
    if flows != [] {
      var (front, last) := (flows[..|flows| - 1], flows[|flows| - 1]);
      FlowsAreNamed(front);
      FlowsLoseNothing(front);
      var (before, out) := (BuildFlows(front).out, BuildFlows(flows).out);
      forall i | 0 <= i < |out| ensures Named(ObjectNames(flows)[i], Keys(out[..i]), out[i].0) {
        if i < |before| {
          assert out[..i] == before[..i];
        } else {
          assert out[..i] == before;
          FreshIsNamed(last.0, BuildFlows(front).seen);
        }
      }
    }
  }

  /** The keys handed out to the first `n` steps. */
  ghost function KeysBefore(items: seq<RawItem>, n: nat): set<string>
    requires n <= |BuildSteps(items).out| == |StepObjects(items)|
  {
    var out := BuildSteps(items).out;
    set i | 0 <= i < n && HasUsableKey(StepObjects(items)[i]) && out[i].key.Is? :: out[i].key.value
  }

  /** Each step comes with the key of its own key, told apart only from those before it. */
  lemma {:induction false} StepsAreNamed(items: seq<RawItem>)
    ensures |BuildSteps(items).out| == |StepObjects(items)|
    ensures BuildSteps(items).seen == KeysBefore(items, |BuildSteps(items).out|)
    ensures forall i :: 0 <= i < |BuildSteps(items).out| && HasUsableKey(StepObjects(items)[i]) ==>
      BuildSteps(items).out[i].key.Is? &&
      Named(StepObjects(items)[i].key.value, KeysBefore(items, i), BuildSteps(items).out[i].key.value)
  {
    hide Named, SlugifyKey, FreshName, Strip;
    StepsLoseNothing(items);
    if items != [] {
      var (front, last) := (items[..|items| - 1], items[|items| - 1]);
      StepsAreNamed(front);
      StepsLoseNothing(front);
      var (before, out) := (BuildSteps(front).out, BuildSteps(items).out);
      assert out[..|before|] == before;
      assert forall i :: 0 <= i < |before| ==> StepObjects(items)[i] == StepObjects(front)[i] && out[i] == before[i];
      forall i | 0 <= i <= |before| ensures KeysBefore(items, i) == KeysBefore(front, i) {
        SameKeysBefore(items, front, i);
      }
      if last.Obj? && HasUsableKey(last.step) {
        FreshIsNamed(last.step.key.value, BuildSteps(front).seen);
        OneMoreKey(items, |before|);
      } else if last.Obj? {
        OneMoreKey(items, |before|);
      }
    }
  }

  lemma SameKeysBefore(items: seq<RawItem>, front: seq<RawItem>, n: nat)
    requires n <= |BuildSteps(items).out| == |StepObjects(items)|
    requires n <= |BuildSteps(front).out| == |StepObjects(front)|
    requires forall i :: 0 <= i < n ==>
      StepObjects(items)[i] == StepObjects(front)[i] && BuildSteps(items).out[i] == BuildSteps(front).out[i]
    ensures KeysBefore(items, n) == KeysBefore(front, n)
  {
    hide BuildSteps, StepObjects, HasUsableKey;
  }

  lemma OneMoreKey(items: seq<RawItem>, n: nat)
    requires n < |BuildSteps(items).out| == |StepObjects(items)|
    ensures KeysBefore(items, n + 1) == KeysBefore(items, n) +
      if HasUsableKey(StepObjects(items)[n]) && BuildSteps(items).out[n].key.Is?
      then {BuildSteps(items).out[n].key.value} else {}
  {
    hide BuildSteps, StepObjects, HasUsableKey;
  }

  // --- what becomes of a flow --------------------------------------------------------------------

  /** A flow of the change keeps its label, type and service name; its unknown fields
      and its customer message go; its steps keep everything but their unknown fields,
      and their keys where these are made usable. */
  lemma IncomingFlowIs(flows: Dict<RawEntry>, i: nat)
    requires i < |FlowObjects(flows)|
    ensures i < |BuildFlows(flows).out|
    ensures
      var (flow, got) := (FlowObjects(flows)[i], BuildFlows(flows).out[i].1);
      && got.labelText == flow.labelText && got.flowType == flow.flowType && got.serviceName == flow.serviceName
      && got.message.Absent? && got.unknown == {}
      && (!flow.steps.Is? ==> got.steps == flow.steps)
      && (flow.steps.Is? ==> got.steps.Is? && StepsKept(flow.steps.value, got.steps.value))
  {
    hide CleanFlow, BuildFlows, FlowObjects;
    FlowsLoseNothing(flows);
    CleanFlowIs(FlowObjects(flows)[i]);
  }

  ghost predicate StepsKept(items: seq<RawItem>, got: seq<RawItem>) {
    var objects := StepObjects(items);
    && |got| == |objects|
    && forall i :: 0 <= i < |got| ==>
      && got[i].Obj?
      && got[i].step == objects[i].(unknown := {}, key := got[i].step.key)
      && (!HasUsableKey(objects[i]) ==> got[i].step.key == objects[i].key)
  }

  lemma CleanFlowIs(flow: RawFlow)
    ensures var got := CleanFlow(flow);
      && got.labelText == flow.labelText && got.flowType == flow.flowType && got.serviceName == flow.serviceName
      && got.message.Absent? && got.unknown == {}
      && (!flow.steps.Is? ==> got.steps == flow.steps)
      && (flow.steps.Is? ==> got.steps.Is? && StepsKept(flow.steps.value, got.steps.value))
  {
    hide BuildSteps, AsItems, StepObjects, HasUsableKey;
    if flow.steps.Is? {
      StepsLoseNothing(flow.steps.value);
      AsItemsAre(BuildSteps(flow.steps.value).out);
    }
  }
}
