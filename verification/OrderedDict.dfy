/** JSON objects with their insertion order, as Python keeps them. */
module OrderedDict {
  import opened Wrappers

  type Dict<V> = seq<(string, V)>

  function Keys<V>(d: Dict<V>): set<string> {
    if d == [] then {} else {d[0].0} + Keys(d[1..])
  }

  /** A JSON object has one value per key. */
  predicate Unique<V>(d: Dict<V>) {
    d == [] || (d[0].0 !in Keys(d[1..]) && Unique(d[1..]))
  }

  function Get<V>(d: Dict<V>, key: string): Option<V> {
    if d == [] then None
    else if d[0].0 == key then Some(d[0].1)
    else Get(d[1..], key)
  }

  /** `d[key] = value`: in place, or appended. */
  function Put<V>(d: Dict<V>, key: string, value: V): Dict<V> {
    if d == [] then [(key, value)]
    else if d[0].0 == key then [(key, value)] + d[1..]
    else [d[0]] + Put(d[1..], key, value)
  }

  /** `d.update(e)`. */
  function PutAll<V>(d: Dict<V>, e: Dict<V>): Dict<V>
    decreases |e|
  {
    if e == [] then d else PutAll(Put(d, e[0].0, e[0].1), e[1..])
  }

  /** `d.pop(key, None)`. */
  function Drop<V>(d: Dict<V>, key: string): Dict<V> {
    if d == [] then []
    else if d[0].0 == key then d[1..]
    else [d[0]] + Drop(d[1..], key)
  }

  function DropAll<V>(d: Dict<V>, keys: seq<string>): Dict<V>
    decreases |keys|
  {
    if keys == [] then d else DropAll(Drop(d, keys[0]), keys[1..])
  }

  lemma {:induction false} KeysAreKeys<V>(d: Dict<V>, key: string)
    ensures key in Keys(d) <==> exists i :: 0 <= i < |d| && d[i].0 == key
    ensures key in Keys(d) <==> Get(d, key).Some?
  {
    if d != [] {
      KeysAreKeys(d[1..], key);
      if key in Keys(d[1..]) {
        var i :| 0 <= i < |d[1..]| && d[1..][i].0 == key;
        assert d[i + 1].0 == key;
      }
      if i :| 0 <= i < |d| && d[i].0 == key && i > 0 {
        assert d[1..][i - 1].0 == key;
      }
    }
  }

  /** Under unique keys, looking a key up finds its entry. */
  lemma {:induction false} GetAt<V>(d: Dict<V>, i: nat)
    requires Unique(d) && i < |d|
    ensures Get(d, d[i].0) == Some(d[i].1)
  {
    if i > 0 {
      GetAt(d[1..], i - 1);
      KeysAreKeys(d[1..], d[i].0);
    }
  }

  /** Assignment changes one key and keeps the others, and their order. */
  lemma {:induction false} PutLaws<V>(d: Dict<V>, key: string, value: V, other: string)
    requires Unique(d)
    ensures Unique(Put(d, key, value))
    ensures Keys(Put(d, key, value)) == Keys(d) + {key}
    ensures Get(Put(d, key, value), other) == if other == key then Some(value) else Get(d, other)
    ensures key !in Keys(d) ==> Put(d, key, value) == d + [(key, value)]
  {
    if d == [] {
      assert Put(d, key, value)[1..] == [];
    } else if d[0].0 == key {
      assert Put(d, key, value)[1..] == d[1..];
    } else {
      PutLaws(d[1..], key, value, other);
      assert Put(d, key, value)[1..] == Put(d[1..], key, value);
      assert d == [d[0]] + d[1..];
    }
  }

  /** Removal loses one key and keeps the others, and their order. */
  lemma {:induction false} DropLaws<V>(d: Dict<V>, key: string, other: string)
    requires Unique(d)
    ensures Unique(Drop(d, key))
    ensures Keys(Drop(d, key)) == Keys(d) - {key}
    ensures Get(Drop(d, key), other) == if other == key then None else Get(d, other)
  {
    if d != [] {
      if d[0].0 == key {
        KeysAreKeys(d[1..], key);
      } else {
        DropLaws(d[1..], key, other);
        assert Drop(d, key)[1..] == Drop(d[1..], key);
      }
    }
  }

  lemma {:induction false} PutAllLaws<V>(d: Dict<V>, e: Dict<V>, other: string)
    requires Unique(d) && Unique(e)
    ensures Unique(PutAll(d, e))
    ensures Keys(PutAll(d, e)) == Keys(d) + Keys(e)
    ensures Get(PutAll(d, e), other) == if other in Keys(e) then Get(e, other) else Get(d, other)
    decreases |e|
  {
    if e != [] {
      PutLaws(d, e[0].0, e[0].1, other);
      PutAllLaws(Put(d, e[0].0, e[0].1), e[1..], other);
    }
  }

  lemma {:induction false} DropAllLaws<V>(d: Dict<V>, keys: seq<string>, other: string)
    requires Unique(d)
    ensures Unique(DropAll(d, keys))
    ensures Keys(DropAll(d, keys)) == Keys(d) - (set k | k in keys)
    ensures Get(DropAll(d, keys), other) == if other in keys then None else Get(d, other)
    decreases |keys|
  {
    if keys != [] {
      DropLaws(d, keys[0], other);
      DropAllLaws(Drop(d, keys[0]), keys[1..], other);
      assert keys == [keys[0]] + keys[1..];
    }
  }

  // --- order --------------------------------------------------------------------------

  /** The keys, in order. */
  function Names<V>(d: Dict<V>): seq<string> {
    if d == [] then [] else [d[0].0] + Names(d[1..])
  }

  function Without(names: seq<string>, gone: set<string>): seq<string> {
    if names == [] then []
    else if names[0] in gone then Without(names[1..], gone)
    else [names[0]] + Without(names[1..], gone)
  }

  lemma {:induction false} NamesAreKeys<V>(d: Dict<V>, name: string)
    ensures name in Names(d) <==> name in Keys(d)
  {
    if d != [] { NamesAreKeys(d[1..], name); }
  }

  lemma {:induction false} SameWithout(names: seq<string>, gone: set<string>, gone': set<string>)
    requires forall n :: n in names ==> (n in gone <==> n in gone')
    ensures Without(names, gone) == Without(names, gone')
  {
    if names != [] { SameWithout(names[1..], gone, gone'); }
  }

  lemma {:induction false} WithoutNothing(names: seq<string>)
    ensures Without(names, {}) == names
  {
    if names != [] {
      WithoutNothing(names[1..]);
      assert [names[0]] + names[1..] == names;
    }
  }

  lemma {:induction false} TwiceWithout(names: seq<string>, gone: set<string>, gone': set<string>)
    ensures Without(Without(names, gone), gone') == Without(names, gone + gone')
  {
    if names != [] {
      TwiceWithout(names[1..], gone, gone');
      var rest := Without(names[1..], gone);
      assert ([names[0]] + rest)[0] == names[0] && ([names[0]] + rest)[1..] == rest;
    }
  }

  /** Assignment keeps the order and appends what is new. */
  lemma {:induction false} PutKeepsOrder<V>(d: Dict<V>, key: string, value: V)
    ensures Names(Put(d, key, value)) == if key in Keys(d) then Names(d) else Names(d) + [key]
    ensures Keys(Put(d, key, value)) == Keys(d) + {key}
  {
    if d == [] {
      assert Put(d, key, value)[1..] == [];
    } else if d[0].0 == key {
      assert Put(d, key, value)[1..] == d[1..];
    } else {
      PutKeepsOrder(d[1..], key, value);
      assert Put(d, key, value)[1..] == Put(d[1..], key, value);
    }
  }

  lemma {:induction false} PutAllKeepsOrder<V>(d: Dict<V>, e: Dict<V>)
    requires Unique(e)
    ensures Names(PutAll(d, e)) == Names(d) + Without(Names(e), Keys(d))
    decreases |e|
  {
    hide Put;
    if e == [] {
      assert Names(d) + [] == Names(d);
    } else {
      var (key, rest) := (e[0].0, Names(e[1..]));
      var put := Put(d, key, e[0].1);
      PutKeepsOrder(d, key, e[0].1);
      PutAllKeepsOrder(put, e[1..]);
      NamesAreKeys(e[1..], key);
      OneMoreName(Names(d), key, rest, Keys(d));
    }
  }

  lemma OneMoreName(names: seq<string>, key: string, rest: seq<string>, known: set<string>)
    requires key !in rest
    ensures (if key in known then names else names + [key]) + Without(rest, known + {key})
         == names + Without([key] + rest, known)
  {
    assert ([key] + rest)[1..] == rest;
    SameWithout(rest, known, known + {key});
    assert key in known ==> known + {key} == known;
    assert names + [key] + Without(rest, known) == names + ([key] + Without(rest, known));
  }

  lemma {:induction false} DropKeepsOrder<V>(d: Dict<V>, key: string)
    requires Unique(d)
    ensures Names(Drop(d, key)) == Without(Names(d), {key})
  {
    if d != [] {
      var rest := Names(d[1..]);
      assert ([d[0].0] + rest)[0] == d[0].0 && ([d[0].0] + rest)[1..] == rest;
      if d[0].0 == key {
        NamesAreKeys(d[1..], key);
        SameWithout(rest, {key}, {});
        WithoutNothing(rest);
      } else {
        DropKeepsOrder(d[1..], key);
        assert Drop(d, key)[1..] == Drop(d[1..], key);
      }
    }
  }

  lemma {:induction false} DropAllKeepsOrder<V>(d: Dict<V>, keys: seq<string>)
    requires Unique(d)
    ensures Names(DropAll(d, keys)) == Without(Names(d), set k | k in keys)
    decreases |keys|
  {
    hide Drop;
    if keys == [] {
      WithoutNothing(Names(d));
      SameWithout(Names(d), {}, set k | k in keys);
    } else {
      DropKeepsOrder(d, keys[0]);
      DropLaws(d, keys[0], keys[0]);
      DropAllKeepsOrder(Drop(d, keys[0]), keys[1..]);
      TwiceWithout(Names(d), {keys[0]}, set k | k in keys[1..]);
      assert keys == [keys[0]] + keys[1..];
      assert (set k | k in keys) == {keys[0]} + set k | k in keys[1..];
    }
  }
}
