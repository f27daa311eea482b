/** Rendering values as the sources do it: the machine sorts the keys of a hash
    map, the tree-walker iterates over an ordered map. */
module ValueText {
  import opened Basics
  import opened Bytecode
  import opened Machine

  /** Where `x` goes in a sorted list. */
  method Position(s: seq<string>, x: string) returns (i: nat)
    requires Sorted(s)
    ensures i <= |s|
    ensures forall j :: 0 <= j < i ==> Leq(s[j], x)
    ensures forall j :: i <= j < |s| ==> Leq(x, s[j])
  {
    i := 0;
    while i < |s| && Leq(s[i], x)
      invariant i <= |s|
      invariant forall j :: 0 <= j < i ==> Leq(s[j], x)
    {
      i := i + 1;
    }
    forall j | i <= j < |s| ensures Leq(x, s[j]) {
      LeqTotal(s[i], x);
      if j > i { LeqTransitive(x, s[i], s[j]); }
    }
  }

  lemma {:induction false} InsertKeepsOrder(s: seq<string>, i: nat, x: string)
    requires Sorted(s) && NoDuplicates(s) && x !in s && i <= |s|
    requires forall j :: 0 <= j < i ==> Leq(s[j], x)
    requires forall j :: i <= j < |s| ==> Leq(x, s[j])
    ensures Sorted(s[..i] + [x] + s[i..]) && NoDuplicates(s[..i] + [x] + s[i..])
    ensures forall y :: y in s[..i] + [x] + s[i..] <==> y == x || y in s
  {
    hide Leq;
    var t := s[..i] + [x] + s[i..];
    forall a, b | 0 <= a < b < |t| ensures Leq(t[a], t[b]) && t[a] != t[b] {
      Inserted(s, i, x, a);
      Inserted(s, i, x, b);
    }
    assert s == s[..i] + s[i..];
  }

  lemma {:induction false} Inserted(s: seq<string>, i: nat, x: string, a: nat)
    requires i <= |s| && a <= |s|
    ensures (s[..i] + [x] + s[i..])[a] == if a < i then s[a] else if a == i then x else s[a - 1]
    ensures a < i ==> s[a] in s
    ensures a > i ==> s[a - 1] in s
  {}

  /** The keys of a hash map, sorted: the ordered map's iteration order. */
  method SortKeys(keys: set<string>) returns (s: seq<string>)
    ensures s == KeysInOrder(keys)
  {
    s := [];
    var rest := keys;
    while rest != {}
      invariant rest <= keys
      invariant Sorted(s) && NoDuplicates(s)
      invariant forall y :: y in s <==> y in keys - rest
      decreases rest
    {
      var k :| k in rest;
      var i := Position(s, k);
      InsertKeepsOrder(s, i, k);
      s := s[..i] + [k] + s[i..];
      rest := rest - {k};
    }
    SortedEnumerationIsUnique(s, keys);
  }

  /** One more `key:value ` in front of the rest. */
  function Prefixed(text: string, r: Option<string>): Option<string> {
    match r
    case None => None
    case Some(rest) => Some(text + rest)
  }

  lemma {:induction false} PrefixedTwice(a: string, b: string, r: Option<string>)
    ensures Prefixed(a, Prefixed(b, r)) == Prefixed(a + b, r)
  {
    if r.Some? { assert a + (b + r.value) == (a + b) + r.value; }
  }

  lemma {:induction false} NextField(h: Heap, keys: seq<string>, fields: map<string, Value>, path: set<Addr>)
    requires keys != [] && keys[0] in fields
    ensures ToString(h, fields[keys[0]], path) == None ==> FieldsToString(h, keys, fields, path) == None
    ensures forall t :: ToString(h, fields[keys[0]], path) == Some(t) ==>
      FieldsToString(h, keys, fields, path) == Prefixed(keys[0] + ":" + t + " ", FieldsToString(h, keys[1..], fields, path))
  {}

  /** `toString` of the machine's values. */
  method Render(h: Heap, v: Value, path: set<Addr>) returns (r: Option<string>)
    ensures r == ToString(h, v, path)
    decreases h.Keys - path, 0
  {
    match Look(h, v)
    case NoneW => r := Some("None");
    case BoolW(b) => r := Some(if b then "true" else "false");
    case IntegerW(i) => r := Some(IntToString(i));
    case StringW(t) => r := Some(t);
    case FunctionW(_) => r := Some("FUNCTION");
    case ClosureW(_, _) => r := Some("FUNCTION");
    case ReferenceW(_, _) => r := None;
    case Invalid => r := None;
    case RecordW(a) =>
      if a !in h || !h[a].RecordObj? || a in path {
        return None;
      }
      assert a in h.Keys - path;
      var keys := SortKeys(h[a].fields.Keys);
      var text := RenderFields(h, keys, h[a].fields, path + {a});
      r := if text.Some? then Some("{" + text.value + "}") else None;
  }

  /** The loop over the sorted keys of a record. */
  method RenderFields(h: Heap, keys: seq<string>, fields: map<string, Value>, path: set<Addr>) returns (r: Option<string>)
    requires forall k :: k in keys ==> k in fields
    ensures r == FieldsToString(h, keys, fields, path)
    decreases h.Keys - path, 1
  {
    hide ToString, FieldsToString;
    var text := "";
    assert keys[0..] == keys;
    PrefixedNothing(FieldsToString(h, keys, fields, path));
    var i := 0;
    while i < |keys|
      invariant i <= |keys|
      invariant FieldsToString(h, keys, fields, path) == Prefixed(text, FieldsToString(h, keys[i..], fields, path))
    {
      assert keys[i..][0] == keys[i] && keys[i..][1..] == keys[i + 1..];
      NextField(h, keys[i..], fields, path);
      var field := Render(h, fields[keys[i]], path);
      if field == None {
        return None;
      }
      PrefixedTwice(text, keys[i] + ":" + field.value + " ", FieldsToString(h, keys[i + 1..], fields, path));
      text := text + (keys[i] + ":" + field.value + " ");
      i := i + 1;
    }
    NoFields(h, keys[i..], fields, path);
    r := Some(text);
  }

  lemma {:induction false} PrefixedNothing(r: Option<string>)
    ensures Prefixed("", r) == r
  {
    if r.Some? { assert "" + r.value == r.value; }
  }

  lemma {:induction false} NoFields(h: Heap, keys: seq<string>, fields: map<string, Value>, path: set<Addr>)
    requires keys == []
    ensures FieldsToString(h, keys, fields, path) == Some("")
    ensures forall t :: Prefixed(t, Some("")) == Some(t)
  {
    assert forall t: string :: t + "" == t;
  }

  // ---------------------------------------------------------------- the text of a record

  lemma {:induction false} TwoKeysInOrder(x: string, y: string)
    requires Leq(x, y) && x != y
    ensures KeysInOrder({x, y}) == [x, y]
  {
    SortedEnumerationIsUnique([x, y], {x, y});
  }

  /** One more field in front. */
  lemma {:induction false} FieldInFront(h: Heap, x: string, keys: seq<string>, m: map<string, Value>, path: set<Addr>, t: string, more: string)
    requires x in m && ToString(h, m[x], path) == Some(t) && FieldsToString(h, keys, m, path) == Some(more)
    ensures FieldsToString(h, [x] + keys, m, path) == Some(x + ":" + t + " " + more)
  {
    hide ToString;
    assert ([x] + keys)[1..] == keys;
  }

  lemma {:induction false} InBraces(h: Heap, a: Addr, path: set<Addr>, t: string)
    requires a in h && a !in path && h[a].RecordObj?
    requires FieldsToString(h, KeysInOrder(h[a].fields.Keys), h[a].fields, path + {a}) == Some(t)
    ensures ToString(h, Ptr(a), path) == Some("{" + t + "}")
  {
    hide FieldsToString, KeysInOrder;
    assert a in h.Keys - path;
  }

  /** A record with two fields, whatever their names and values: the smaller name first. */
  lemma {:induction false} TwoFields(h: Heap, a: Addr, path: set<Addr>, x: string, y: string, tx: string, ty: string)
    requires a in h && a !in path && h[a].RecordObj? && h[a].fields.Keys == {x, y} && Leq(x, y) && x != y
    requires ToString(h, h[a].fields[x], path + {a}) == Some(tx) && ToString(h, h[a].fields[y], path + {a}) == Some(ty)
    ensures ToString(h, Ptr(a), path) == Some("{" + x + ":" + tx + " " + y + ":" + ty + " }")
  {
    hide ToString, KeysInOrder, Leq;
    var m, inside := h[a].fields, path + {a};
    TwoKeysInOrder(x, y);
    assert FieldsToString(h, [], m, inside) == Some("");
    hide FieldsToString;
    FieldInFront(h, y, [], m, inside, ty, "");
    assert [y] + [] == [y] && [x] + [y] == [x, y];
    FieldInFront(h, x, [y], m, inside, tx, y + ":" + ty + " " + "");
    InBraces(h, a, path, x + ":" + tx + " " + (y + ":" + ty + " " + ""));
    assert "{" + (x + ":" + tx + " " + (y + ":" + ty + " " + "")) + "}" == "{" + x + ":" + tx + " " + y + ":" + ty + " }";
  }
}
