/** The Redis keys of one conversation, and the chat reference stamped on leads
    (backend/app/services/conversation_state.py, abandoned_sweep.py). */
module ChatKeys {
  import opened Wrappers

  const CONV := "conv"

  /** Every key the conversation service uses, before it is rendered as text. */
  datatype Key =
    | StateKey(business: string, conversation: string)
    | LogKey(business: string, conversation: string)
    | UnreadKey(business: string, conversation: string)
    | OutboxKey(business: string, conversation: string)
    | IndexKey(business: string)

  function ChatRefText(business: string, conversation: string): string {
    CONV + ":" + business + ":" + conversation
  }

  function Suffix(key: Key): string {
    match key
    case LogKey(_, _) => ":log"
    case UnreadKey(_, _) => ":unread"
    case OutboxKey(_, _) => ":outbox"
    case _ => ""
  }

  function Render(key: Key): string {
    if key.IndexKey? then "convindex:" + key.business
    else ChatRefText(key.business, key.conversation) + Suffix(key)
  }

  /** The prefix check every accessor repeats. */
  predicate Owns(business: string, key: string) { CONV + ":" + business + ":" <= key }

  ghost predicate ColonFree(s: string) { ':' !in s }

  /** The position of the first colon, or the length of the text. */
  function FirstColon(s: string): (i: nat)
    ensures i <= |s|
  {
    if s == "" || s[0] == ':' then 0 else 1 + FirstColon(s[1..])
  }

  /** `ref.split(":", 2)` into `conv`, a business and a conversation. */
  function SplitChatRef(ref: string): Option<(string, string)> {
    var i := FirstColon(ref);
    if i == |ref| then None
    else
      var rest := ref[i + 1..];
      var j := FirstColon(rest);
      if j == |rest| || ref[..i] != CONV || rest[..j] == "" || rest[j + 1..] == "" then None
      else Some((rest[..j], rest[j + 1..]))
  }

  lemma {:induction false} FirstColonOf(head: string, tail: string)
    requires ColonFree(head)
    ensures FirstColon(head + ":" + tail) == |head|
  {
    if head == "" {
      assert (head + ":" + tail)[0] == ':';
    } else {
      FirstColonOf(head[1..], tail);
      assert (head + ":" + tail)[1..] == head[1..] + ":" + tail;
    }
  }

  lemma {:induction false} FirstColonLaws(s: string)
    ensures ColonFree(s[..FirstColon(s)])
    ensures FirstColon(s) < |s| ==> s[FirstColon(s)] == ':'
  {
    if s != "" && s[0] != ':' {
      FirstColonLaws(s[1..]);
      assert s[..FirstColon(s)] == [s[0]] + s[1..][..FirstColon(s[1..])];
    }
  }

  /** A reference splits into exactly the business and conversation it was built
      from; the conversation may itself contain colons. */
  lemma SplitInvertsChatRef(ref: string, business: string, conversation: string)
    ensures SplitChatRef(ref) == Some((business, conversation))
      <==> ref == ChatRefText(business, conversation) && ColonFree(business) && business != "" && conversation != ""
  {
    hide SplitChatRef, ChatRefText;
    if ref == ChatRefText(business, conversation) && ColonFree(business) && business != "" && conversation != "" {
      BuiltRefSplits(business, conversation);
    }
    if SplitChatRef(ref) == Some((business, conversation)) { SplitRefWasBuilt(ref, business, conversation); }
  }

  lemma BuiltRefSplits(business: string, conversation: string)
    requires ColonFree(business) && business != "" && conversation != ""
    ensures SplitChatRef(ChatRefText(business, conversation)) == Some((business, conversation))
  {
    hide FirstColon;
    var ref := ChatRefText(business, conversation);
    var rest := business + ":" + conversation;
    assert ref == CONV + ":" + rest;
    FirstColonOf(CONV, rest);
    FirstColonOf(business, conversation);
    assert ref[..|CONV|] == CONV && ref[|CONV| + 1..] == rest;
    assert rest[..|business|] == business && rest[|business| + 1..] == conversation;
  }

  lemma SplitRefWasBuilt(ref: string, business: string, conversation: string)
    requires SplitChatRef(ref) == Some((business, conversation))
    ensures ref == ChatRefText(business, conversation) && ColonFree(business) && business != "" && conversation != ""
  {
    hide FirstColon;
    var i := FirstColon(ref);
    var rest := ref[i + 1..];
    FirstColonLaws(ref);
    FirstColonLaws(rest);
    assert ref == CONV + ":" + rest;
    assert rest == business + ":" + conversation;
    assert CONV + ":" + (business + ":" + conversation) == ChatRefText(business, conversation);
  }

  /** Two texts headed by colon-free names agree only if the names do. */
  lemma HeadsAgree(a: string, x: string, b: string, y: string)
    requires ColonFree(a) && ColonFree(b) && a + ":" + x == b + ":" + y
    ensures a == b && x == y
  {
    FirstColonOf(a, x);
    FirstColonOf(b, y);
    assert (a + ":" + x)[..|a|] == a && (b + ":" + y)[..|b|] == b;
    assert (a + ":" + x)[|a| + 1..] == x && (b + ":" + y)[|b| + 1..] == y;
  }

  lemma RenderHead(key: Key)
    ensures Render(key) ==
      if key.IndexKey? then "convindex" + ":" + key.business
      else CONV + ":" + (key.business + ":" + (key.conversation + Suffix(key)))
  {
    assert ":" + key.business == ":" + key.business;
  }

  /** No key of one tenant is a key of another, whatever the conversation ids. */
  lemma TenantKeysAreApart(k: Key, l: Key)
    requires ColonFree(k.business) && ColonFree(l.business)
    requires Render(k) == Render(l)
    ensures k.business == l.business
    ensures k.IndexKey? <==> l.IndexKey?
    ensures !k.IndexKey? ==> k.conversation + Suffix(k) == l.conversation + Suffix(l)
  {
    RenderHead(k);
    RenderHead(l);
    var kTail := if k.IndexKey? then k.business else k.business + ":" + (k.conversation + Suffix(k));
    var lTail := if l.IndexKey? then l.business else l.business + ":" + (l.conversation + Suffix(l));
    HeadsAgree(if k.IndexKey? then "convindex" else CONV, kTail, if l.IndexKey? then "convindex" else CONV, lTail);
    if !k.IndexKey? {
      HeadsAgree(k.business, k.conversation + Suffix(k), l.business, l.conversation + Suffix(l));
    }
  }

  /** Conversation ids that look like a log, unread or outbox key. */
  predicate LooksReserved(conversation: string) {
    EndsWith(conversation, ":log") || EndsWith(conversation, ":unread") || EndsWith(conversation, ":outbox")
  }

  predicate EndsWith(s: string, end: string) {
    |end| <= |s| && s[|s| - |end|..] == end
  }

  lemma LastChars(a: string, b: string)
    requires b != ""
    ensures (a + b)[|a + b| - 1] == b[|b| - 1]
    ensures EndsWith(a + b, b)
  {
  }

  /** Within a tenant the only collisions are between a conversation's hash and
      another one's log, counter or queue, and they happen exactly when the first
      conversation id is the second one followed by that key's suffix. */
  lemma CollisionsWithinTenant(business: string, k: Key, l: Key)
    requires ColonFree(business) && k.business == business && l.business == business && k != l
    ensures Render(k) == Render(l) <==>
      !k.IndexKey? && !l.IndexKey? &&
      ((k.StateKey? && !l.StateKey? && k.conversation == l.conversation + Suffix(l)) ||
       (l.StateKey? && !k.StateKey? && l.conversation == k.conversation + Suffix(k)))
  {
    if Render(k) == Render(l) {
      TenantKeysAreApart(k, l);
      if !k.IndexKey? && !k.StateKey? && !l.StateKey? {
        LastChars(k.conversation, Suffix(k));
        LastChars(l.conversation, Suffix(l));
        assert false;
      }
      if k.StateKey? { assert k.conversation + "" == k.conversation; }
      if l.StateKey? { assert l.conversation + "" == l.conversation; }
    } else if !k.IndexKey? && !l.IndexKey? {
      RenderHead(k);
      RenderHead(l);
      assert k.conversation + "" == k.conversation && l.conversation + "" == l.conversation;
    }
  }

  /** For ordinary conversation ids distinct keys are distinct Redis keys. */
  lemma OrdinaryKeysAreDistinct(k: Key, l: Key)
    requires ColonFree(k.business) && ColonFree(l.business)
    requires !k.IndexKey? ==> !LooksReserved(k.conversation)
    requires !l.IndexKey? ==> !LooksReserved(l.conversation)
    ensures Render(k) == Render(l) <==> k == l
  {
    if Render(k) == Render(l) && k != l {
      TenantKeysAreApart(k, l);
      CollisionsWithinTenant(k.business, k, l);
      if k.StateKey? {
        LastChars(l.conversation, Suffix(l));
      } else {
        LastChars(k.conversation, Suffix(k));
      }
      assert false;
    }
  }

  /** A tenant's accessor refuses every key of another tenant. */
  lemma OwnsOnlyOwnKeys(business: string, k: Key)
    requires ColonFree(business) && ColonFree(k.business) && !k.IndexKey?
    ensures Owns(business, Render(k)) <==> k.business == business
  {
    hide ColonFree, Owns, Render;
    if Owns(business, Render(k)) { OwnedIsOwn(business, k); }
    if k.business == business { OwnIsOwned(k); }
  }

  lemma OwnIsOwned(k: Key)
    requires !k.IndexKey?
    ensures Owns(k.business, Render(k))
  {
    RenderHead(k);
    assert Render(k) == (CONV + ":" + k.business + ":") + (k.conversation + Suffix(k));
  }

  lemma OwnedIsOwn(business: string, k: Key)
    requires ColonFree(business) && ColonFree(k.business) && !k.IndexKey? && Owns(business, Render(k))
    ensures k.business == business
  {
    hide ColonFree;
    RenderHead(k);
    var rest := k.conversation + Suffix(k);
    var prefix := CONV + ":" + business + ":";
    var tail := Render(k)[|prefix|..];
    assert Render(k) == prefix + tail;
    assert prefix + tail == CONV + ":" + (business + ":" + tail);
    assert ColonFree(CONV) by { ConvIsColonFree(); }
    HeadsAgree(CONV, k.business + ":" + rest, CONV, business + ":" + tail);
    HeadsAgree(k.business, rest, business, tail);
  }

  lemma ConvIsColonFree()
    ensures ColonFree(CONV)
  {
  }
}
