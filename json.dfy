/** JSON values as the client handles them: the tool input schemas the
    service sends and the argument objects the model produces. Objects are
    Python dicts, so they keep their keys in insertion order; the model keeps
    them as association lists. */
module Json {
  import opened Wrappers

  datatype Value =
    | Null
    | Bool(b: bool)
    | Number(n: int)
    | Str(s: string)
    | Array(items: seq<Value>)
    | Object(fields: seq<(string, Value)>)

  /** A Python dict with string keys, in insertion order. */
  type Dict = seq<(string, Value)>

  /** The keys of a dict, in order (`list(d)`). */
  function Keys(d: Dict): seq<string>
  {
    if d == [] then [] else [d[0].0] + Keys(d[1..])
  }

  /** `d.get(k)`. */
  function Get(d: Dict, k: string): Option<Value>
  {
    if d == [] then None
    else if d[0].0 == k then Some(d[0].1)
    else Get(d[1..], k)
  }

  /** The dict after `d.pop(k, default)`: the entry for `k`, if any, is gone. */
  function Pop(d: Dict, k: string): Dict
  {
    if d == [] then []
    else (if d[0].0 == k then [] else [d[0]]) + Pop(d[1..], k)
  }

  /** The dict after `d[k] = v`: an existing key keeps its place and takes
      the new value; a new key goes at the end. */
  function Put(d: Dict, k: string, v: Value): Dict
  {
    if k in Keys(d) then Replace(d, k, v) else d + [(k, v)]
  }

  function Replace(d: Dict, k: string, v: Value): Dict
  {
    if d == [] then []
    else [if d[0].0 == k then (k, v) else d[0]] + Replace(d[1..], k, v)
  }

  /** A key list with every occurrence of `k` taken out. */
  function Without(ks: seq<string>, k: string): seq<string>
  {
    if ks == [] then [] else (if ks[0] == k then [] else [ks[0]]) + Without(ks[1..], k)
  }

  /** A key is present exactly when looking it up finds something. */
  lemma {:induction false} GetPresent(d: Dict, k: string)
    ensures Get(d, k).Some? <==> k in Keys(d)
  {
    if d != [] {
      GetPresent(d[1..], k);
      assert Keys(d) == [d[0].0] + Keys(d[1..]);
    }
  }

  /** After `pop(k)` the key is gone, every other key reads as before, and the
      remaining keys keep their order. */
  lemma {:induction false} PopFacts(d: Dict, k: string)
    ensures Get(Pop(d, k), k) == None
    ensures forall k' :: k' != k ==> Get(Pop(d, k), k') == Get(d, k')
    ensures Keys(Pop(d, k)) == Without(Keys(d), k)
  {
    if d != [] {
      PopFacts(d[1..], k);
      var head: Dict := if d[0].0 == k then [] else [d[0]];
      assert Pop(d, k) == head + Pop(d[1..], k);
      if d[0].0 != k {
        assert (head + Pop(d[1..], k))[1..] == Pop(d[1..], k);
      } else {
        assert head + Pop(d[1..], k) == Pop(d[1..], k);
      }
    }
  }

  /** After `d[k] = v` the key reads `v`, every other key reads as before. */
  lemma {:induction false} ReplaceFacts(d: Dict, k: string, v: Value)
    ensures Keys(Replace(d, k, v)) == Keys(d)
    ensures k in Keys(d) ==> Get(Replace(d, k, v), k) == Some(v)
    ensures forall k' :: k' != k ==> Get(Replace(d, k, v), k') == Get(d, k')
  {
    if d != [] {
      ReplaceFacts(d[1..], k, v);
      var e := if d[0].0 == k then (k, v) else d[0];
      assert Replace(d, k, v) == [e] + Replace(d[1..], k, v);
      assert ([e] + Replace(d[1..], k, v))[1..] == Replace(d[1..], k, v);
    }
  }

  /** Appending a key that is not yet present. */
  lemma {:induction false} AppendFacts(d: Dict, k: string, v: Value)
    requires k !in Keys(d)
    ensures Keys(d + [(k, v)]) == Keys(d) + [k]
    ensures Get(d + [(k, v)], k) == Some(v)
    ensures forall k' :: k' != k ==> Get(d + [(k, v)], k') == Get(d, k')
  {
    if d == [] {
      assert [(k, v)][1..] == [];
    } else {
      assert (d + [(k, v)])[1..] == d[1..] + [(k, v)];
      assert Keys(d) == [d[0].0] + Keys(d[1..]);
      AppendFacts(d[1..], k, v);
    }
  }

  /** `d[k] = v`: afterwards `k` reads `v` and nothing else changes; the key
      order changes only by a new key going at the end. */
  lemma PutFacts(d: Dict, k: string, v: Value)
    ensures Get(Put(d, k, v), k) == Some(v)
    ensures forall k' :: k' != k ==> Get(Put(d, k, v), k') == Get(d, k')
    ensures Keys(Put(d, k, v)) == if k in Keys(d) then Keys(d) else Keys(d) + [k]
  {
    if k in Keys(d) {
      ReplaceFacts(d, k, v);
    } else {
      AppendFacts(d, k, v);
    }
  }

  /** Popping a key that is not there changes nothing. */
  lemma {:induction false} PopAbsent(d: Dict, k: string)
    requires k !in Keys(d)
    ensures Pop(d, k) == d
  {
    if d != [] {
      assert Keys(d) == [d[0].0] + Keys(d[1..]);
      PopAbsent(d[1..], k);
      assert [d[0]] + d[1..] == d;
    }
  }

  lemma {:induction false} PopAppend(a: Dict, b: Dict, k: string)
    ensures Pop(a + b, k) == Pop(a, k) + Pop(b, k)
  {
    if a == [] {
      assert a + b == b;
    } else {
      assert (a + b)[0] == a[0];
      assert (a + b)[1..] == a[1..] + b;
      PopAppend(a[1..], b, k);
    }
  }
}
