/** `cleanObject`: an object without its undefined entries. */
module Helper {
  import opened Js

  /** An object's entries as `Object.entries` lists them: no key twice. */
  predicate UniqueKeys<K(==)>(fields: seq<(K, Value)>) {
    forall i, j :: 0 <= i < j < |fields| ==> fields[i].0 != fields[j].0
  }

  /** `Object.fromEntries(Object.entries(obj).filter(([_, v]) => v !== undefined))`. */
  function CleanObject<K(!new)>(fields: seq<(K, Value)>): (r: seq<(K, Value)>)
    ensures forall e :: e in r <==> e in fields && e.1 != Undefined
    ensures |r| <= |fields|
  {
    if fields == [] then []
    else
      var init := CleanObject(fields[..|fields| - 1]);
      var last := fields[|fields| - 1];
      assert fields == fields[..|fields| - 1] + [last];
      if last.1 != Undefined then init + [last] else init
  }

  /** `sub` is `s` with some entries left out, the rest in their order. */
  predicate IsSubsequence<T(==)>(sub: seq<T>, s: seq<T>) {
    if sub == [] then true
    else if s == [] then false
    else if sub[|sub| - 1] == s[|s| - 1] then IsSubsequence(sub[..|sub| - 1], s[..|s| - 1])
    else IsSubsequence(sub, s[..|s| - 1])
  }

  /** The kept entries keep their relative order and values. */
  lemma {:induction false} CleanObjectKeepsOrder<K(!new)>(fields: seq<(K, Value)>)
    ensures IsSubsequence(CleanObject(fields), fields)
  {
    if fields != [] {
      var init := fields[..|fields| - 1];
      CleanObjectKeepsOrder(init);
      var r := CleanObject(fields);
      if fields[|fields| - 1].1 != Undefined {
        assert r[..|r| - 1] == CleanObject(init);
      }
    }
  }

  /** The keys of the result are keys of the input, and only undefined values are dropped. */
  lemma {:induction false} CleanObjectKeys<K(!new)>(fields: seq<(K, Value)>, k: K)
    ensures k in Keys(CleanObject(fields)) ==> k in Keys(fields)
    ensures forall i :: 0 <= i < |CleanObject(fields)| ==> CleanObject(fields)[i].1 != Undefined
  {
    var r := CleanObject(fields);
    if k in Keys(r) {
      var i :| 0 <= i < |r| && Keys(r)[i] == k;
      assert r[i] in fields;
      var j :| 0 <= j < |fields| && fields[j] == r[i];
      assert Keys(fields)[j] == k;
    }
    assert forall i :: 0 <= i < |r| ==> r[i] in r;
  }

  /** Cleaning twice is cleaning once. */
  lemma {:induction false} CleanObjectIdempotent<K(!new)>(fields: seq<(K, Value)>)
    ensures CleanObject(CleanObject(fields)) == CleanObject(fields)
  {
    if fields != [] {
      var init := fields[..|fields| - 1];
      CleanObjectIdempotent(init);
      var last := fields[|fields| - 1];
      if last.1 != Undefined {
        var r := CleanObject(init) + [last];
        assert r[..|r| - 1] == CleanObject(init);
      }
    }
  }

  /** On an object, every read of the cleaned object agrees with the same read of the original. */
  lemma {:induction false} CleanObjectReadsSame<K(!new)>(fields: seq<(K, Value)>, k: K)
    requires UniqueKeys(fields)
    ensures Get(CleanObject(fields), k) == Get(fields, k)
  {
    if fields != [] {
      var init := fields[..|fields| - 1];
      var last := fields[|fields| - 1];
      CleanObjectReadsSame(init, k);
      var c := CleanObject(init);
      if last.1 != Undefined {
        assert (c + [last])[..|c|] == c;
      }
      if last.0 == k && last.1 == Undefined {
        assert forall i :: 0 <= i < |init| ==> Keys(init)[i] == fields[i].0 != k;
        assert k !in Keys(init);
        CleanObjectKeys(init, k);
      }
    }
  }

  /** Cleaning an object leaves it an object: no key appears twice. */
  lemma {:induction false} CleanObjectKeepsUniqueKeys<K(!new)>(fields: seq<(K, Value)>)
    requires UniqueKeys(fields)
    ensures UniqueKeys(CleanObject(fields))
  {
    if fields != [] {
      var init := fields[..|fields| - 1];
      var last := fields[|fields| - 1];
      CleanObjectKeepsUniqueKeys(init);
      var c := CleanObject(init);
      if last.1 != Undefined {
        forall i | 0 <= i < |c|
          ensures c[i].0 != last.0
        {
          assert c[i] in init;
          var j :| 0 <= j < |init| && init[j] == c[i];
          assert fields[j].0 != fields[|fields| - 1].0;
        }
      }
    }
  }
}
