/** Flat records: the Python dictionaries of scalars that every backend
    adapter receives. A dictionary keeps its insertion order, so it is a
    sequence of fields; `d[k] = v` replaces a present key in place and
    appends an absent one.
 */
module Records {
  import opened Wrappers
  import Text

  datatype Value =
    | VNull
    | VStr(s: string)
    | VInt(i: int)
    | VBool(b: bool)
    /** `datetime.fromtimestamp(ms / 1000)`; the calendar conversion is not modelled. */
    | VDateTime(epochMillis: int)
    /** A DOUBLE, TIMESTAMP, DATE or TIME cell of the time-series store, kept as its text. */
    | VUnparsed(dataType: string, raw: string)

  datatype Field = Field(key: string, value: Value)

  type Record = seq<Field>

  function Keys(r: Record): (ks: seq<string>)
    ensures |ks| == |r|
    ensures forall i :: 0 <= i < |r| ==> ks[i] == r[i].key
    decreases |r|
  {
    if |r| == 0 then [] else [r[0].key] + Keys(r[1..])
  }

  lemma KeysCons(f: Field, r: Record)
    ensures Keys([f] + r) == [f.key] + Keys(r)
  {
    assert ([f] + r)[1..] == r;
  }

  /** The dictionary `{ks[0]: vs[0], ks[1]: vs[1], ...}` written out key by key. */
  function FromPairs(ks: seq<string>, vs: seq<Value>): (r: Record)
    requires |ks| == |vs|
    ensures Keys(r) == ks
    ensures forall i :: 0 <= i < |r| ==> r[i] == Field(ks[i], vs[i])
  {
    seq(|ks|, i requires 0 <= i < |ks| => Field(ks[i], vs[i]))
  }

  /** A well-formed dictionary: no key twice. */
  predicate UniqueKeys(r: Record) {
    forall i, j :: 0 <= i < j < |r| ==> r[i].key != r[j].key
  }

  /** `d.get(k)`. */
  function Get(r: Record, k: string): (v: Option<Value>)
    ensures v.None? <==> k !in Keys(r)
    ensures v.Some? ==> exists i :: 0 <= i < |r| && r[i] == Field(k, v.value)
    decreases |r|
  {
    if |r| == 0 then None
    else if r[0].key == k then Some(r[0].value)
    else
      var v := Get(r[1..], k);
      assert v.Some? ==> exists i :: 0 <= i < |r[1..]| && r[1..][i] == Field(k, v.value);
      assert Keys(r) == [r[0].key] + Keys(r[1..]);
      v
  }

  /** The value of the first field named `k`. */
  lemma {:induction false} GetAt(r: Record, i: nat, k: string)
    requires i < |r| && r[i].key == k
    requires forall j :: 0 <= j < i ==> r[j].key != k
    ensures Get(r, k) == Some(r[i].value)
    decreases i
  {
    if i > 0 {
      GetAt(r[1..], i - 1, k);
    }
  }

  /** `d[k] = v`. */
  function Put(r: Record, k: string, v: Value): (r': Record)
    ensures k in Keys(r) ==> Keys(r') == Keys(r)
    ensures k !in Keys(r) ==> Keys(r') == Keys(r) + [k]
    decreases |r|
  {
    if |r| == 0 then [Field(k, v)]
    else if r[0].key == k then
      KeysCons(Field(k, v), r[1..]);
      KeysCons(r[0], r[1..]);
      [Field(k, v)] + r[1..]
    else
      var tail := Put(r[1..], k, v);
      KeysCons(r[0], r[1..]);
      KeysCons(r[0], tail);
      [r[0]] + tail
  }

  /** After `d[k] = v`, `d[k]` is `v` and every other key reads as before. */
  lemma {:induction false} PutGet(r: Record, k: string, v: Value, k': string)
    ensures Get(Put(r, k, v), k) == Some(v)
    ensures k' != k ==> Get(Put(r, k, v), k') == Get(r, k')
    decreases |r|
  {
    if |r| > 0 && r[0].key != k {
      PutGet(r[1..], k, v, k');
      assert Put(r, k, v)[1..] == Put(r[1..], k, v);
    }
  }

  /** Assigning a new key appends it, after the existing entries. */
  lemma {:induction false} PutFresh(r: Record, k: string, v: Value)
    requires k !in Keys(r)
    ensures Put(r, k, v) == r + [Field(k, v)]
    decreases |r|
  {
    if |r| > 0 {
      KeysCons(r[0], r[1..]);
      assert [r[0]] + r[1..] == r;
      PutFresh(r[1..], k, v);
      assert r + [Field(k, v)] == [r[0]] + (r[1..] + [Field(k, v)]);
    }
  }

  /** The dictionary without its entry for `k` (the first one, in a
      dictionary with repeated keys). */
  function Remove(r: Record, k: string): Record
    decreases |r|
  {
    if |r| == 0 then []
    else if r[0].key == k then r[1..]
    else [r[0]] + Remove(r[1..], k)
  }

  lemma {:induction false} RemoveKeepsOthers(r: Record, k: string)
    requires UniqueKeys(r)
    ensures UniqueKeys(Remove(r, k))
    ensures Get(Remove(r, k), k) == None
    ensures forall k' :: k' != k ==> Get(Remove(r, k), k') == Get(r, k')
    ensures k in Keys(r) ==> |Remove(r, k)| == |r| - 1
    decreases |r|
  {
    if |r| > 0 {
      if r[0].key == k {
        assert k !in Keys(r[1..]);
      } else {
        RemoveKeepsOthers(r[1..], k);
        assert Keys(r) == [r[0].key] + Keys(r[1..]);
        var rest := Remove(r[1..], k);
        assert r[0].key !in Keys(r[1..]);
        assert Get(rest, r[0].key) == None;
      }
    }
  }

  /** `d.pop(k)`: the value and the dictionary without the key, or KeyError. */
  function Pop(r: Record, k: string): (p: Result<(Value, Record)>)
    ensures p.Err? <==> k !in Keys(r)
    ensures p.Ok? ==> Get(r, k) == Some(p.value.0)
  {
    match Get(r, k)
    case None => Err(KeyError(k))
    case Some(v) => Ok((v, Remove(r, k)))
  }

  /** `str(v)`. A datetime's text is not modelled and is written as its
      epoch milliseconds. */
  function Str(v: Value): string {
    match v
    case VNull => "None"
    case VStr(s) => s
    case VInt(i) => Text.IntToString(i)
    case VBool(b) => if b then "True" else "False"
    case VDateTime(ms) => Text.IntToString(ms)
    case VUnparsed(_, raw) => raw
  }
}
