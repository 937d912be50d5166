/** Step keys on their way from the builder through validation, which strips them:
    when the keys handed out as distinct stay distinct. */
module StepKeyLaws {
  import opened Text
  import opened BotConfig
  import opened BotBuilder
  import opened BuilderLaws

  /** The same text but for spaces at the end. */
  predicate SameButSpaces(a: string, b: string) {
    (a <= b && MadeOf(b[|a|..], {' '})) || (b <= a && MadeOf(a[|b|..], {' '}))
  }

  /** A key as the builder hands it out: not starting with an underscore or a space,
      and ending in a space only where a name was cut at 40 characters. */
  ghost predicate HandedOut(key: string) {
    && key != "" && AllKeyChars(key) && key[0] !in EDGES
    && (key[|key| - 1] == ' ' ==> |key| == MAX_SLUG)
  }

  lemma SlugIsHandedOut(name: string)
    ensures HandedOut(SlugifyKey(name))
  {
    hide SlugBody;
    SlugBodyLaws(name);
  }

  lemma FreshNameIsHandedOut(name: string, seen: set<string>)
    ensures HandedOut(FreshName(SlugifyKey(name), seen))
  {
    hide SlugifyKey, FreeIndex;
    SlugIsHandedOut(name);
    FreshNameLaws(name, seen);
    var slug := SlugifyKey(name);
    if slug in seen {
      var n := FreeIndex(slug, seen, 2);
      ParseDecimal(n);
      var key := Suffixed(slug, n);
      assert key[|key| - 1] == Decimal(n)[|Decimal(n)| - 1];
    }
  }

  lemma {:induction false} KeysAreHandedOut(items: seq<RawItem>)
    ensures |BuildSteps(items).out| == |StepObjects(items)|
    ensures forall i :: 0 <= i < |BuildSteps(items).out| && HasUsableKey(StepObjects(items)[i]) ==>
      BuildSteps(items).out[i].key.Is? && HandedOut(BuildSteps(items).out[i].key.value)
  {
    hide FreshName, SlugifyKey, HandedOut;
    if items != [] {
      var (front, last) := (items[..|items| - 1], items[|items| - 1]);
      KeysAreHandedOut(front);
      if last.Obj? && HasUsableKey(last.step) {
        FreshNameIsHandedOut(last.step.key.value, BuildSteps(front).seen);
      }
    }
  }

  // --- stripping ---------------------------------------------------------------------

  /** Stripping a handed-out key takes the spaces off its end. */
  lemma StripHandedOut(key: string)
    requires HandedOut(key)
    ensures Strip(key) <= key && MadeOf(key[|Strip(key)|..], {' '})
    ensures Strip(key) != "" && Strip(key)[|Strip(key)| - 1] != ' '
  {
    var i, j := TrimIsSlice(key, SPACES);
    assert TrimLeft(key, SPACES) == key;
    var k := TrimRightIsPrefix(key, SPACES);
    assert Strip(key) == key[..k];
    assert key[0] !in SPACES;
    assert key == key[..k] + key[k..];
    forall p | 0 <= p < |key[k..]| ensures key[k..][p] == ' ' {
      assert key[k..][p] == key[k + p] && KeyChar(key[k + p]);
    }
  }

  /** Two handed-out keys validate to one key exactly when they are the same but for
      spaces at the end; of two different ones the longer is then a name cut at 40
      characters. */
  lemma CollideExactlyWhen(a: string, b: string)
    requires HandedOut(a) && HandedOut(b)
    ensures Strip(a) == Strip(b) <==> SameButSpaces(a, b)
    ensures a != b && Strip(a) == Strip(b) && |a| <= |b| ==> |a| < |b| == MAX_SLUG && b[|b| - 1] == ' '
  {
    StripHandedOut(a);
    StripHandedOut(b);
    hide Strip, HandedOut;
    var (x, y) := (Strip(a), Strip(b));
    if x == y {
      EndInSpaces(x, a, b);
    }
    if a <= b && MadeOf(b[|a|..], {' '}) { SameStem(a, b, x, y); }
    if b <= a && MadeOf(a[|b|..], {' '}) { SameStem(b, a, y, x); }
    if x == y && a != b && |a| <= |b| { LongerIsCut(x, a, b); }
  }

  lemma EndInSpaces(x: string, a: string, b: string)
    requires x <= a && MadeOf(a[|x|..], {' '}) && x <= b && MadeOf(b[|x|..], {' '})
    ensures SameButSpaces(a, b)
  {
    var (s, t) := if |a| <= |b| then (a, b) else (b, a);
    forall p | 0 <= p < |s| ensures s[p] == t[p] {
      if p >= |x| { assert s[p] == s[|x|..][p - |x|] && t[p] == t[|x|..][p - |x|]; }
    }
    forall p | 0 <= p < |t[|s|..]| ensures t[|s|..][p] == ' ' {
      assert t[|s|..][p] == t[|x|..][|s| + p - |x|];
    }
  }

  lemma SameStem(a: string, b: string, x: string, y: string)
    requires a <= b && MadeOf(b[|a|..], {' '})
    requires x != "" && x <= a && MadeOf(a[|x|..], {' '}) && x[|x| - 1] != ' '
    requires y != "" && y <= b && MadeOf(b[|y|..], {' '}) && y[|y| - 1] != ' '
    ensures x == y
  {
    assert forall p :: |x| <= p < |a| ==> a[p] == a[|x|..][p - |x|];
    assert forall p :: |a| <= p < |b| ==> b[p] == b[|a|..][p - |a|];
    assert forall p :: |y| <= p < |b| ==> b[p] == b[|y|..][p - |y|];
  }

  lemma LongerIsCut(x: string, a: string, b: string)
    requires HandedOut(b) && x <= a && x <= b && MadeOf(a[|x|..], {' '}) && MadeOf(b[|x|..], {' '})
    requires a != b && |a| <= |b|
    ensures |a| < |b| == MAX_SLUG && b[|b| - 1] == ' '
  {
    EndInSpaces(x, a, b);
    assert |a| == |b| ==> a == b;
    assert b[|b| - 1] == b[|x|..][|b| - 1 - |x|];
  }

  // --- a whole flow ----------------------------------------------------------------------

  lemma {:induction false} AsItemsAre(steps: seq<RawStep>)
    ensures |AsItems(steps)| == |steps| && forall i :: 0 <= i < |steps| ==> AsItems(steps)[i] == Obj(steps[i])
  {
    if steps != [] { AsItemsAre(steps[..|steps| - 1]); }
  }

  lemma {:induction false} ValidKeysAreStripped(items: seq<RawItem>)
    requires ValidateSteps(items).Valid?
    ensures |ValidateSteps(items).value| == |items|
    ensures forall i :: 0 <= i < |items| ==>
      items[i].Obj? && items[i].step.key.Is? && Strip(items[i].step.key.value) != "" &&
      ValidateSteps(items).value[i].key == Strip(items[i].step.key.value)
  {
    hide CleanOptions, CleanAccept, Strip;
    if items != [] {
      ValidKeysAreStripped(items[1..]);
      forall i | 0 <= i < |items|
        ensures items[i].Obj? && items[i].step.key.Is? && Strip(items[i].step.key.value) != "" &&
          ValidateSteps(items).value[i].key == Strip(items[i].step.key.value)
      {
        if i > 0 { assert items[i] == items[1..][i - 1]; }
      }
    }
  }

  ghost function HandedKey(items: seq<RawItem>, i: nat): string
    requires i < |BuildSteps(items).out|
  {
    match BuildSteps(items).out[i].key
    case Is(key) => key
    case _ => ""
  }

  /** Of steps that each validate, the keys the builder handed out are still distinct
      after validation exactly when no two are the same but for spaces at the end;
      otherwise the flow is refused, and in a rebuild dropped. */
  lemma KeysStayDistinctExactlyWhen(items: seq<RawItem>)
    requires ValidateSteps(AsItems(BuildSteps(items).out)).Valid?
    ensures DistinctKeys(ValidateSteps(AsItems(BuildSteps(items).out)).value) <==>
      forall i, j :: 0 <= i < j < |BuildSteps(items).out| ==> !SameButSpaces(HandedKey(items, i), HandedKey(items, j))
  {
    hide BuildSteps, AsItems, ValidateSteps, StepObjects, HasUsableKey, SameButSpaces, HandedOut, Strip;
    var out := BuildSteps(items).out;
    var steps := ValidateSteps(AsItems(out)).value;
    AsItemsAre(out);
    ValidKeysAreStripped(AsItems(out));
    KeysAreHandedOut(items);
    StepsLoseNothing(items);
    forall i | 0 <= i < |out| ensures steps[i].key == Strip(HandedKey(items, i)) && HandedOut(HandedKey(items, i)) {
      assert AsItems(out)[i] == Obj(out[i]);
      UsableIfKept(StepObjects(items)[i], out[i]);
    }
    forall i, j | 0 <= i < j < |out|
      ensures steps[i].key == steps[j].key <==> SameButSpaces(HandedKey(items, i), HandedKey(items, j))
    {
      CollideExactlyWhen(HandedKey(items, i), HandedKey(items, j));
    }
  }

  lemma UsableIfKept(before: RawStep, after: RawStep)
    requires after.key.Is? && Strip(after.key.value) != ""
    requires !HasUsableKey(before) ==> after.key == before.key
    ensures HasUsableKey(before)
  {
  }

  /** 39 letters, and the same with a space and more: the second key is cut after the
      space, and a flow with both steps is refused although its keys were distinct. */
  lemma SpaceCutSinksFlow(flow: RawFlow, items: seq<RawItem>, first: RawStep, second: RawStep, name: string)
    requires flow.steps == Is(items) && items == [Obj(first), Obj(second)]
    requires |name| == 39 && forall i :: 0 <= i < 39 ==> name[i] == 'a'
    requires first.key == Is(name) && second.key == Is(name + " a")
    ensures |BuildSteps(items).out| == 2
    ensures BuildSteps(items).out[0].key == Is(name) && BuildSteps(items).out[1].key == Is(name + " ")
    ensures ValidateFlow(CleanFlow(flow)).Invalid?
  {
    hide SlugifyKey, Strip, ReadStep, StepRule, FlowRule, CleanOptions, CleanAccept, KeyChar;
    TwoKeys(items, first, second, name);
    var out := BuildSteps(items).out;
    AsItemsAre(out);
    if ValidateFlow(CleanFlow(flow)).Valid? {
      assert ValidateSteps(AsItems(out)).Valid?;
      assert HandedKey(items, 0) == name && HandedKey(items, 1) == name + " ";
      assert (name + " ")[|name|..] == " ";
      assert SameButSpaces(HandedKey(items, 0), HandedKey(items, 1));
      KeysStayDistinctExactlyWhen(items);
      ValidFlowHasDistinctKeys(CleanFlow(flow), AsItems(out));
      assert false;
    }
  }

  lemma ValidFlowHasDistinctKeys(flow: RawFlow, items: seq<RawItem>)
    requires ValidateFlow(flow).Valid? && flow.steps == Is(items)
    ensures ValidateSteps(items).Valid? && DistinctKeys(ValidateSteps(items).value)
  {
    hide ValidateSteps, DistinctKeys, Strip;
  }

  lemma TwoKeys(items: seq<RawItem>, first: RawStep, second: RawStep, name: string)
    requires items == [Obj(first), Obj(second)]
    requires |name| == 39 && forall i :: 0 <= i < 39 ==> name[i] == 'a'
    requires first.key == Is(name) && second.key == Is(name + " a")
    ensures |BuildSteps(items).out| == 2
    ensures BuildSteps(items).out[0].key == Is(name) && BuildSteps(items).out[1].key == Is(name + " ")
  {
    hide SlugifyKey, Strip, FreeIndex;
    var one := [Obj(first)];
    assert items[..1] == one && one[..0] == [];
    CleanNames(name);
    StrippedIsFixed(name);
    StrippedIsFixed(name + " a");
    assert BuildSteps(one) == Building([first.(unknown := {})], {name});
    assert name + " " != name;
  }

  lemma CleanNames(name: string)
    requires |name| == 39 && forall i :: 0 <= i < 39 ==> name[i] == 'a'
    ensures SlugifyKey(name) == name && SlugifyKey(name + " a") == name + " "
  {
    hide SlugBody;
    CleanBody(name);
    CleanBody(name + " a");
    assert (name + " a")[..40] == name + " ";
  }
}
