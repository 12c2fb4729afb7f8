/**
  JSON values as Python's `json.load` hands them to the annotator.

  An object is a list of members in insertion order, because a Python dict
  keeps insertion order and `json.dump` writes the members in that order.
  A `Number` stands for the value `json.load` parsed, which `json.dump` may
  write back in a different form; the annotator never looks at it.
 */
module JsonValue {
  import opened Wrappers

  datatype Json =
    | Null
    | Bool(b: bool)
    | Number(literal: string)
    | Str(s: string)
    | Arr(items: seq<Json>)
    | Obj(fields: seq<Member>)

  datatype Member = Member(key: string, value: Json)

  /** The keys of an object, in order. */
  function Keys(fs: seq<Member>): seq<string>
  {
    if |fs| == 0 then [] else [fs[0].key] + Keys(fs[1..])
  }

  /** `Keys` lists the key of every member, position by position. */
  lemma {:induction false} KeysAt(fs: seq<Member>)
    ensures |Keys(fs)| == |fs|
    ensures forall i :: 0 <= i < |fs| ==> Keys(fs)[i] == fs[i].key
  {
    if |fs| != 0 {
      KeysAt(fs[1..]);
    }
  }

  predicate Distinct(ks: seq<string>) {
    forall i, j :: 0 <= i < j < |ks| ==> ks[i] != ks[j]
  }

  /** Every object a Python dict can hold: no key twice. */
  predicate UniqueKeys(fs: seq<Member>) {
    Distinct(Keys(fs))
  }

  /** `d.get(k)`: the value stored under `k`, or None. */
  function Lookup(fs: seq<Member>, k: string): (r: Option<Json>)
    ensures r.Some? <==> k in Keys(fs)
  {
    KeysAt(fs);
    if |fs| == 0 then None
    else if fs[0].key == k then Some(fs[0].value)
    else Lookup(fs[1..], k)
  }

  /**
    `d[k] = v`: an existing key keeps its position and gets the new value,
    a new key goes to the end.
   */
  function Set(fs: seq<Member>, k: string, v: Json): seq<Member>
  {
    if |fs| == 0 then [Member(k, v)]
    else if fs[0].key == k then [Member(k, v)] + fs[1..]
    else [fs[0]] + Set(fs[1..], k, v)
  }

  /** After `d[k] = v`, `d[k]` is `v` and every other key reads as before. */
  lemma {:induction false} SetLookup(fs: seq<Member>, k: string, v: Json)
    ensures Lookup(Set(fs, k, v), k) == Some(v)
    ensures forall k' :: k' != k ==> Lookup(Set(fs, k, v), k') == Lookup(fs, k')
  {
    if |fs| != 0 && fs[0].key != k {
      SetLookup(fs[1..], k, v);
      assert Set(fs, k, v)[1..] == Set(fs[1..], k, v);
    }
  }

  /** `d[k] = v` keeps the key order, adding `k` at the end when it is new. */
  lemma {:induction false} SetKeys(fs: seq<Member>, k: string, v: Json)
    ensures Keys(Set(fs, k, v)) == if k in Keys(fs) then Keys(fs) else Keys(fs) + [k]
  {
    if |fs| == 0 {
    } else if fs[0].key == k {
      assert Keys(Set(fs, k, v)) == [k] + Keys(fs[1..]);
    } else {
      SetKeys(fs[1..], k, v);
      assert Set(fs, k, v)[1..] == Set(fs[1..], k, v);
      assert Keys(fs) == [fs[0].key] + Keys(fs[1..]);
      assert Keys(Set(fs, k, v)) == [fs[0].key] + Keys(Set(fs[1..], k, v));
    }
  }

  /** `d[k] = v` never creates a duplicate key. */
  lemma SetUnique(fs: seq<Member>, k: string, v: Json)
    requires UniqueKeys(fs)
    ensures UniqueKeys(Set(fs, k, v))
  {
    SetKeys(fs, k, v);
  }

  /** Storing a key the object does not have appends one member at the end. */
  lemma {:induction false} SetNewKey(fs: seq<Member>, k: string, v: Json)
    requires k !in Keys(fs)
    ensures Set(fs, k, v) == fs + [Member(k, v)]
  {
    if |fs| != 0 {
      assert Keys(fs) == [fs[0].key] + Keys(fs[1..]);
      SetNewKey(fs[1..], k, v);
      assert fs == [fs[0]] + fs[1..];
    }
  }

  /** `{**fs, **gs}`: start from `fs`, then store every member of `gs` in turn. */
  function Merge(fs: seq<Member>, gs: seq<Member>): seq<Member>
    decreases |gs|
  {
    if |gs| == 0 then fs
    else Merge(Set(fs, gs[0].key, gs[0].value), gs[1..])
  }

  /** Keys outside `gs` keep their value; keys of `gs` read as in `gs`. */
  lemma {:induction false} MergeLookup(fs: seq<Member>, gs: seq<Member>, k: string)
    requires UniqueKeys(gs)
    ensures Lookup(Merge(fs, gs), k) == if k in Keys(gs) then Lookup(gs, k) else Lookup(fs, k)
    decreases |gs|
  {
    if |gs| != 0 {
      assert Keys(gs) == [gs[0].key] + Keys(gs[1..]);
      assert Keys(gs[1..]) == Keys(gs)[1..];
      SetLookup(fs, gs[0].key, gs[0].value);
      MergeLookup(Set(fs, gs[0].key, gs[0].value), gs[1..], k);
    }
  }

  /** Storing the same value twice is storing it once. */
  lemma {:induction false} SetTwice(fs: seq<Member>, k: string, v: Json)
    ensures Set(Set(fs, k, v), k, v) == Set(fs, k, v)
  {
    if |fs| != 0 && fs[0].key != k {
      SetTwice(fs[1..], k, v);
      assert Set(fs, k, v)[1..] == Set(fs[1..], k, v);
    }
  }

  /** Merging a one-member dict is a single store. */
  lemma MergeOne(fs: seq<Member>, k: string, v: Json)
    ensures Merge(fs, [Member(k, v)]) == Set(fs, k, v)
  {
  }
}
