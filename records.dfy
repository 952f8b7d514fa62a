/**
 Tokenised rows as the cleansing pipeline sees them: a Python dict from field
 name to value, kept as the sequence of its entries in insertion order (the
 order in which `dict.items()` yields them).
 */
module Records {

  datatype Option<T> = None | Some(value: T)

  /** A field value handed over by the file reader: text, or one of the
      other kinds of value a cell can hold. Only `Str` is ever rewritten. */
  datatype Value =
    | Str(s: string)
    | Int(n: int)
    | Real(x: real)
    | Date(year: int, month: int, day: int)
    | Null

  datatype Entry = Entry(key: string, value: Value)

  type Record = seq<Entry>

  function Keys(r: Record): seq<string>
  {
    if r == [] then [] else [r[0].key] + Keys(r[1..])
  }

  /** What every Python dict satisfies: no key occurs twice. */
  ghost predicate DistinctKeys(r: Record)
  {
    forall i, j :: 0 <= i < j < |r| ==> r[i].key != r[j].key
  }

  /** `d.get(k)`. */
  function Get(r: Record, k: string): Option<Value>
  {
    if r == [] then None
    else if r[0].key == k then Some(r[0].value)
    else Get(r[1..], k)
  }

  lemma {:induction false} KeysAt(r: Record)
    ensures |Keys(r)| == |r|
    ensures forall i :: 0 <= i < |r| ==> Keys(r)[i] == r[i].key
  {
    if r != [] {
      KeysAt(r[1..]);
    }
  }

  /** While a dict is copied entry by entry, the next key of the source is
      not yet in the copy. */
  lemma NextKeyIsNew(r: Record, copy: Record, i: nat)
    requires DistinctKeys(r) && i < |r| && |copy| == i
    requires forall k :: 0 <= k < i ==> copy[k].key == r[k].key
    ensures r[i].key !in Keys(copy)
  {
    KeysAt(copy);
  }

  /** `get` finds a key exactly when some entry holds it. */
  lemma {:induction false} GetSome(r: Record, k: string)
    ensures Get(r, k).Some? <==> k in Keys(r)
  {
    if r != [] {
      GetSome(r[1..], k);
    }
  }

  /** `d[k] = v`: an existing key keeps its place and takes the new value, a
      new key is appended at the end, and no other key changes. */
  function Put(r: Record, k: string, v: Value): (r': Record)
    ensures Get(r', k) == Some(v)
    ensures forall k' :: k' != k ==> Get(r', k') == Get(r, k')
    ensures k !in Keys(r) ==> r' == r + [Entry(k, v)]
    ensures k in Keys(r) ==> Keys(r') == Keys(r)
  {
    if r == [] then [Entry(k, v)]
    else if r[0].key == k then [Entry(k, v)] + r[1..]
    else
      var rest := Put(r[1..], k, v);
      assert k !in Keys(r) ==> [r[0]] + rest == r + [Entry(k, v)] by {
        if k !in Keys(r) {
          assert r == [r[0]] + r[1..];
        }
      }
      [r[0]] + rest
  }

  /** Rebuilds a record entry by entry with `f` applied to every value: the
      same keys in the same order, with each value replaced by its image. */
  function MapValues(r: Record, f: Value -> Value): (r': Record)
    ensures |r'| == |r|
    ensures forall i :: 0 <= i < |r| ==> r'[i] == Entry(r[i].key, f(r[i].value))
  {
    if r == [] then [] else [Entry(r[0].key, f(r[0].value))] + MapValues(r[1..], f)
  }

  /** MapValues keeps the key sequence, so it keeps a dict a dict. */
  lemma {:induction false} MapValuesKeys(r: Record, f: Value -> Value)
    ensures Keys(MapValues(r, f)) == Keys(r)
    ensures DistinctKeys(r) ==> DistinctKeys(MapValues(r, f))
  {
    if r != [] {
      MapValuesKeys(r[1..], f);
      var r' := MapValues(r, f);
      assert r'[1..] == MapValues(r[1..], f);
    }
  }

  /** Looked up by key, the rebuilt record holds the image of what the
      original holds, and has no key the original lacks. */
  lemma {:induction false} MapValuesGet(r: Record, f: Value -> Value, k: string)
    ensures Get(MapValues(r, f), k) == match Get(r, k) { case None => None case Some(v) => Some(f(v)) }
  {
    if r != [] {
      MapValuesGet(r[1..], f, k);
      assert MapValues(r, f)[1..] == MapValues(r[1..], f);
    }
  }

  /** MapValuesGet for every key at once. */
  lemma MapValuesGetAll(r: Record, f: Value -> Value)
    ensures forall k :: Get(MapValues(r, f), k) == match Get(r, k) { case None => None case Some(v) => Some(f(v)) }
  {
    forall k ensures Get(MapValues(r, f), k) == match Get(r, k) { case None => None case Some(v) => Some(f(v)) } {
      MapValuesGet(r, f, k);
    }
  }

  /** A record built entry by entry as the image of `r` under `f` is
      `MapValues(r, f)`, with everything that follows from that. */
  lemma BuiltByMapValues(r: Record, f: Value -> Value, built: Record)
    requires |built| == |r|
    requires forall i :: 0 <= i < |r| ==> built[i] == Entry(r[i].key, f(r[i].value))
    ensures built == MapValues(r, f)
    ensures Keys(built) == Keys(r) && (DistinctKeys(r) ==> DistinctKeys(built))
    ensures forall k :: Get(built, k) == match Get(r, k) { case None => None case Some(v) => Some(f(v)) }
  {
    assert built == MapValues(r, f);
    MapValuesKeys(r, f);
    MapValuesGetAll(r, f);
  }

  /** Rebuilding with an idempotent `f` a second time changes nothing. */
  lemma MapValuesIdempotent(r: Record, f: Value -> Value)
    requires forall v :: f(f(v)) == f(v)
    ensures MapValues(MapValues(r, f), f) == MapValues(r, f)
  {
  }
}
