/**
 * get_value from src/utility.py: `reduce(operator.getitem, key_list, dictionary)`
 * inside a try/except that turns any exception into None.
 *
 * Lookup is the reduce itself, a left fold of GetItem over the keys that stops
 * at the first step Python would raise on. GetValue is what the Python function
 * returns: the value reached, or None (JNull) on failure.
 */
module Utility {
  import opened Wrappers
  import opened Json

  /** The left fold of getitem over the path, aborted (None) by the first failing step. */
  function Lookup(d: Json, keys: seq<Key>): (r: Option<Json>)
    ensures keys == [] ==> r == Some(d)
    ensures keys != [] && GetItem(d, keys[0]).None? ==> r.None?
    ensures keys != [] && GetItem(d, keys[0]).Some? ==> r == Lookup(GetItem(d, keys[0]).value, keys[1..])
    decreases |keys|
  {
    if keys == [] then Some(d)
    else
      match GetItem(d, keys[0])
      case None => None
      case Some(v) => Lookup(v, keys[1..])
  }

  /** get_value(d, keys): the value reached, or None when any step raises. */
  function GetValue(d: Json, keys: seq<Key>): (r: Json)
    ensures Lookup(d, keys).Some? ==> r == Lookup(d, keys).value
    ensures Lookup(d, keys).None? ==> r == JNull
  {
    match Lookup(d, keys)
    case Some(v) => v
    case None => JNull
  }

  /**
   * An independent reading of "index step by step in order": vs[0] is the input
   * and each vs[i + 1] is vs[i] subscripted by keys[i].
   */
  ghost predicate Walk(d: Json, keys: seq<Key>, vs: seq<Json>) {
    && |vs| == |keys| + 1
    && vs[0] == d
    && forall i :: 0 <= i < |keys| ==> GetItem(vs[i], keys[i]) == Some(vs[i + 1])
  }

  /** With no keys, reduce returns its initial value: the input itself. */
  lemma GetValueEmptyPath(d: Json)
    ensures GetValue(d, []) == d
  {
  }

  /** A path of two parts can be looked up in two steps; a failed first part fails the whole. */
  lemma {:induction false} LookupAppend(d: Json, p: seq<Key>, q: seq<Key>)
    ensures Lookup(d, p + q) == (match Lookup(d, p) case None => None case Some(v) => Lookup(v, q))
    decreases |p|
  {
    if p == [] {
      assert p + q == q;
    } else {
      assert (p + q)[0] == p[0];
      assert (p + q)[1..] == p[1..] + q;
      match GetItem(d, p[0]) {
        case None =>
        case Some(v) => LookupAppend(v, p[1..], q);
      }
    }
  }

  /** Decomposition at the head: get_value(d, [k] + ks) == get_value(d[k], ks) when d[k] exists. */
  lemma GetValueCons(d: Json, k: Key, ks: seq<Key>, v: Json)
    requires GetItem(d, k) == Some(v)
    ensures GetValue(d, [k] + ks) == GetValue(v, ks)
  {
    assert ([k] + ks)[0] == k;
    assert ([k] + ks)[1..] == ks;
  }

  /** Decomposition at any point: once a prefix reaches v, the rest of the path continues from v. */
  lemma GetValueTwoSteps(d: Json, p: seq<Key>, q: seq<Key>, v: Json)
    requires Lookup(d, p) == Some(v)
    ensures GetValue(d, p + q) == GetValue(v, q)
  {
    LookupAppend(d, p, q);
  }

  /** Failure is absorbing: a path that fails still fails when extended. */
  lemma LookupFailureAbsorbs(d: Json, p: seq<Key>, q: seq<Key>)
    requires Lookup(d, p) == None
    ensures Lookup(d, p + q) == None
  {
    LookupAppend(d, p, q);
  }

  /**
   * The same at the level of the Python result, where failure and a JSON null
   * are both None: extending a path whose result is None by at least one key
   * gives None again (subscripting None raises TypeError).
   */
  lemma GetValueNoneAbsorbs(d: Json, p: seq<Key>, q: seq<Key>)
    requires GetValue(d, p) == JNull
    requires q != []
    ensures GetValue(d, p + q) == JNull
  {
    LookupAppend(d, p, q);
    match Lookup(d, p) {
      case None =>
      case Some(v) =>
        assert v == JNull;
        assert GetItem(v, q[0]) == None;
    }
  }

  /** A walk along the path determines the lookup: the result is the last value reached. */
  lemma {:induction false} WalkGivesLookup(d: Json, keys: seq<Key>, vs: seq<Json>)
    requires Walk(d, keys, vs)
    ensures Lookup(d, keys) == Some(vs[|keys|])
    decreases |keys|
  {
    if keys != [] {
      assert GetItem(vs[0], keys[0]) == Some(vs[1]);
      assert Walk(vs[1], keys[1..], vs[1..]) by {
        forall i | 0 <= i < |keys[1..]|
          ensures GetItem(vs[1..][i], keys[1..][i]) == Some(vs[1..][i + 1])
        {
          assert GetItem(vs[i + 1], keys[i + 1]) == Some(vs[i + 2]);
        }
      }
      WalkGivesLookup(vs[1], keys[1..], vs[1..]);
    }
  }

  /** Conversely, a successful lookup comes from a walk in which every key was present. */
  lemma {:induction false} LookupGivesWalk(d: Json, keys: seq<Key>)
    requires Lookup(d, keys).Some?
    ensures exists vs :: Walk(d, keys, vs) && vs[|keys|] == Lookup(d, keys).value
    decreases |keys|
  {
    if keys == [] {
      assert Walk(d, keys, [d]);
    } else {
      var v := GetItem(d, keys[0]).value;
      LookupGivesWalk(v, keys[1..]);
      var vs :| Walk(v, keys[1..], vs) && vs[|keys[1..]|] == Lookup(v, keys[1..]).value;
      var ws := [d] + vs;
      assert Walk(d, keys, ws) by {
        forall i | 0 <= i < |keys|
          ensures GetItem(ws[i], keys[i]) == Some(ws[i + 1])
        {
          if i > 0 {
            assert GetItem(vs[i - 1], keys[1..][i - 1]) == Some(vs[i]);
          }
        }
      }
      assert ws[|keys|] == vs[|keys[1..]|];
    }
  }

  /** get_value reaches v exactly when every key along the path is present, stepping in order to v. */
  lemma GetValueReaches(d: Json, keys: seq<Key>, v: Json)
    ensures Lookup(d, keys) == Some(v) <==> exists vs :: Walk(d, keys, vs) && vs[|keys|] == v
  {
    if Lookup(d, keys) == Some(v) {
      LookupGivesWalk(d, keys);
    }
    forall vs | Walk(d, keys, vs) && vs[|keys|] == v
      ensures Lookup(d, keys) == Some(v)
    {
      WalkGivesLookup(d, keys, vs);
    }
  }

  /**
   * A missing key, or an intermediate value that cannot be indexed, yields None:
   * if the walk reaches vs[i] and keys[i] cannot be applied to it, get_value
   * returns None, whatever follows.
   */
  lemma GetValueStepFails(d: Json, keys: seq<Key>, i: nat, vs: seq<Json>)
    requires i < |keys|
    requires Walk(d, keys[..i], vs)
    requires GetItem(vs[i], keys[i]) == None
    ensures Lookup(d, keys) == None && GetValue(d, keys) == JNull
  {
    assert keys == keys[..i] + keys[i..];
    LookupAppend(d, keys[..i], keys[i..]);
    WalkGivesLookup(d, keys[..i], vs);
    assert keys[i..][0] == keys[i];
  }
}
