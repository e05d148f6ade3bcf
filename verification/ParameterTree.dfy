/**
 Nested parameter documents and the paths on which two of them differ, for
 scripts/render_staged_nav2_params.py.  Numbers are exact reals.
 */
module ParameterTree {
  datatype Option<+T> = None | Some(value: T)

  /** A document with keys of type K. */
  datatype Tree<K> =
    | Null
    | Flag(on: bool)
    | Number(number: real)
    | Text(text: string)
    | List(items: seq<Tree<K>>)
    | Mapping(fields: map<K, Tree<K>>)

  function Get<K>(t: Tree<K>, path: seq<K>): Option<Tree<K>> {
    if path == [] then Some(t)
    else if t.Mapping? && path[0] in t.fields then Get(t.fields[path[0]], path[1..])
    else None
  }

  /** Replaces what is at a path that exists. */
  function Put<K>(t: Tree<K>, path: seq<K>, value: Tree<K>): Tree<K>
    requires Get(t, path).Some?
  {
    if path == [] then value
    else Mapping(t.fields[path[0] := Put(t.fields[path[0]], path[1..], value)])
  }

  /** The paths at which two documents differ, as the renderer collects them. */
  function ChangedPaths<K>(before: Tree<K>, after: Tree<K>, prefix: seq<K>): set<seq<K>>
    decreases before
  {
    if before.Mapping? && after.Mapping? then
      (set k | k in before.fields.Keys + after.fields.Keys && (k !in before.fields || k !in after.fields) :: prefix + [k])
      + (set k, p | k in before.fields && k in after.fields && p in ChangedPaths(before.fields[k], after.fields[k], prefix + [k]) :: p)
    else if before == after then {}
    else {prefix}
  }

  lemma {:induction false} PutGet<K>(t: Tree<K>, path: seq<K>, value: Tree<K>)
    requires Get(t, path).Some?
    ensures Get(Put(t, path, value), path) == Some(value)
    decreases |path|
  {
    if path != [] {
      PutGet(t.fields[path[0]], path[1..], value);
    }
  }

  predicate Apart<K(==)>(p: seq<K>, q: seq<K>) {
    !(p <= q) && !(q <= p)
  }

  /** A change at one path is not seen at paths that lead elsewhere. */
  lemma {:induction false} PutElsewhere<K>(t: Tree<K>, path: seq<K>, value: Tree<K>, other: seq<K>)
    requires Get(t, path).Some? && Apart(path, other)
    ensures Get(Put(t, path, value), other) == Get(t, other)
    decreases |path|
  {
    if path[0] == other[0] {
      assert Apart(path[1..], other[1..]);
      PutElsewhere(t.fields[path[0]], path[1..], value, other[1..]);
    }
  }

  lemma ChildChanges<K>(before: Tree<K>, after: Tree<K>, prefix: seq<K>, k: K)
    requires before.Mapping? && after.Mapping? && k in before.fields && k in after.fields
    ensures ChangedPaths(before.fields[k], after.fields[k], prefix + [k]) <= ChangedPaths(before, after, prefix)
  {
  }

  lemma KeyChanges<K>(before: Tree<K>, after: Tree<K>, prefix: seq<K>, k: K)
    requires before.Mapping? && after.Mapping? && (k in before.fields <==> k !in after.fields)
    ensures prefix + [k] in ChangedPaths(before, after, prefix)
  {
  }

  lemma LeafChanges<K>(before: Tree<K>, after: Tree<K>, prefix: seq<K>)
    requires !(before.Mapping? && after.Mapping?) && before != after
    ensures prefix in ChangedPaths(before, after, prefix)
  {
  }

  /** The set is empty exactly on equal documents. */
  lemma {:induction false} NoChangeIsEqual<K>(before: Tree<K>, after: Tree<K>, prefix: seq<K>)
    ensures ChangedPaths(before, after, prefix) == {} <==> before == after
    decreases before
  {
    if before.Mapping? && after.Mapping? {
      forall k | k in before.fields && k in after.fields
        ensures ChangedPaths(before.fields[k], after.fields[k], prefix + [k]) == {} <==> before.fields[k] == after.fields[k]
        ensures ChangedPaths(before.fields[k], after.fields[k], prefix + [k]) <= ChangedPaths(before, after, prefix)
      {
        NoChangeIsEqual(before.fields[k], after.fields[k], prefix + [k]);
        ChildChanges(before, after, prefix, k);
      }
      forall k | k in before.fields.Keys + after.fields.Keys && !(k in before.fields && k in after.fields)
        ensures prefix + [k] in ChangedPaths(before, after, prefix)
      {
        KeyChanges(before, after, prefix, k);
      }
      if ChangedPaths(before, after, prefix) == {} {
        assert forall k :: k in before.fields.Keys + after.fields.Keys ==> k in before.fields && k in after.fields;
        assert before.fields.Keys == after.fields.Keys;
        assert before.fields == after.fields;
      }
    }
  }

  /** Equal, or both inner nodes. */
  predicate Agree<K(==)>(a: Option<Tree<K>>, b: Option<Tree<K>>) {
    a == b || (a.Some? && b.Some? && a.value.Mapping? && b.value.Mapping?)
  }

  /** Where no changed path is at or above, the documents agree. */
  lemma {:induction false} AgreeElsewhere<K>(before: Tree<K>, after: Tree<K>, prefix: seq<K>, path: seq<K>)
    requires forall p :: p in ChangedPaths(before, after, prefix) ==> !(p <= prefix + path)
    ensures Agree(Get(before, path), Get(after, path))
    decreases |path|
  {
    StartsOf(prefix, path);
    if before.Mapping? && after.Mapping? {
      if path != [] {
        var k := path[0];
        if k in before.fields && k in after.fields {
          ChildChanges(before, after, prefix, k);
          assert prefix + path == (prefix + [k]) + path[1..];
          AgreeElsewhere(before.fields[k], after.fields[k], prefix + [k], path[1..]);
        } else if k in before.fields || k in after.fields {
          KeyChanges(before, after, prefix, k);
        }
      }
    } else if before != after {
      LeafChanges(before, after, prefix);
    }
  }

  lemma StartsOf<K>(prefix: seq<K>, path: seq<K>)
    ensures prefix <= prefix + path
    ensures path != [] ==> prefix + [path[0]] <= prefix + path
  {
  }

  /** The documents have one shape and differ at most in the leaves at the given paths. */
  predicate SameBut<K(==)>(before: Tree<K>, after: Tree<K>, paths: set<seq<K>>, prefix: seq<K>)
    decreases before
  {
    || before == after
    || (prefix in paths && !before.Mapping? && !after.Mapping?)
    || (before.Mapping? && after.Mapping? && before.fields.Keys == after.fields.Keys
        && forall k :: k in before.fields ==> SameBut(before.fields[k], after.fields[k], paths, prefix + [k]))
  }

  lemma {:induction false} SameButReflects<K>(t: Tree<K>, paths: set<seq<K>>, prefix: seq<K>)
    ensures SameBut(t, t, paths, prefix)
  {
  }

  lemma {:induction false} SameButChains<K>(a: Tree<K>, b: Tree<K>, c: Tree<K>, paths: set<seq<K>>, prefix: seq<K>)
    requires SameBut(a, b, paths, prefix) && SameBut(b, c, paths, prefix)
    ensures SameBut(a, c, paths, prefix)
    decreases a
  {
    if a != b && b != c && a.Mapping? {
      forall k | k in a.fields ensures SameBut(a.fields[k], c.fields[k], paths, prefix + [k]) {
        SameButChains(a.fields[k], b.fields[k], c.fields[k], paths, prefix + [k]);
      }
    }
  }

  /** Writing a leaf over a leaf at an allowed path keeps everything else. */
  lemma {:induction false} PutIsSameBut<K>(t: Tree<K>, path: seq<K>, value: Tree<K>, paths: set<seq<K>>, prefix: seq<K>)
    requires Get(t, path).Some? && !Get(t, path).value.Mapping? && !value.Mapping?
    requires prefix + path in paths
    ensures SameBut(t, Put(t, path, value), paths, prefix)
    decreases |path|
  {
    if path == [] {
      assert prefix + path == prefix;
    } else {
      var k := path[0];
      assert prefix + path == (prefix + [k]) + path[1..];
      PutIsSameBut(t.fields[k], path[1..], value, paths, prefix + [k]);
    }
  }

  /** The collected paths are then among the allowed ones. */
  lemma {:induction false} SameButChangesOnly<K>(a: Tree<K>, b: Tree<K>, paths: set<seq<K>>, prefix: seq<K>)
    requires SameBut(a, b, paths, prefix)
    ensures ChangedPaths(a, b, prefix) <= paths
    decreases a
  {
    if a == b {
      NoChangeIsEqual(a, b, prefix);
    } else if a.Mapping? && b.Mapping? {
      forall p | p in ChangedPaths(a, b, prefix) ensures p in paths {
        var k :| k in a.fields && p in ChangedPaths(a.fields[k], b.fields[k], prefix + [k]);
        SameButChangesOnly(a.fields[k], b.fields[k], paths, prefix + [k]);
      }
    }
  }

  /** Two documents that differ at most at some paths, and do not differ there, are equal. */
  lemma {:induction false} SameEverywhere<K>(a: Tree<K>, b: Tree<K>, paths: set<seq<K>>, prefix: seq<K>)
    requires SameBut(a, b, paths, prefix)
    requires forall p :: prefix + p in paths ==> Get(a, p) == Get(b, p)
    ensures a == b
    decreases a
  {
    if a.Mapping? && b.Mapping? {
      forall k | k in a.fields ensures a.fields[k] == b.fields[k] {
        forall p | (prefix + [k]) + p in paths ensures Get(a.fields[k], p) == Get(b.fields[k], p) {
          assert prefix + ([k] + p) == (prefix + [k]) + p;
          assert ([k] + p)[1..] == p;
          assert Get(a, [k] + p) == Get(b, [k] + p);
        }
        SameEverywhere(a.fields[k], b.fields[k], paths, prefix + [k]);
      }
      assert a.fields == b.fields;
    } else {
      assert prefix + [] == prefix;
      assert prefix in paths ==> Get(a, []) == Get(b, []);
    }
  }
}
