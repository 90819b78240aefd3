/** The diff between the remote map (current state) and the local map
    (desired state) as a changelog, the batch operations it becomes, and what
    those operations do to a dictionary. The diff library's own emission order
    is not modelled: keys are visited in one fixed order (local rows first,
    then remote items, each key once), and what is proved does not depend on
    that order. */
module DictionaryDiff {
  import opened FastlyExt
  import opened DictionaryRows

  datatype ChangeType = CREATE | UPDATE | DELETE

  /** One changelog entry; `to` is the new value of a CREATE or an UPDATE. */
  datatype Change = Change(kind: ChangeType, key: string, to: string)

  predicate NoDup<T(==)>(s: seq<T>)
  {
    forall i, j :: 0 <= i < j < |s| ==> s[i] != s[j]
  }

  /** `s` with every repeat dropped, first occurrences kept in order. */
  function Dedup(s: seq<string>): (r: seq<string>)
    ensures NoDup(r)
    ensures forall x :: x in r <==> x in s
  {
    if s == [] then []
    else
      var init, last := Dedup(s[..|s| - 1]), s[|s| - 1];
      assert forall x :: x in s <==> x in s[..|s| - 1] || x == last;
      if last in init then init else init + [last]
  }

  function RowKeys(rows: seq<seq<string>>): (keys: seq<string>)
    requires WellFormed(rows)
  {
    seq(|rows|, i requires 0 <= i < |rows| => rows[i][0])
  }

  function ItemKeys(items: seq<DictionaryItem>): (keys: seq<string>)
  {
    seq(|items|, i requires 0 <= i < |items| => items[i].itemKey)
  }

  /** The order in which the diff visits keys: every local and every remote
      key exactly once. */
  function KeyOrder(items: seq<DictionaryItem>, rows: seq<seq<string>>): (keys: seq<string>)
    requires WellFormed(rows)
    ensures NoDup(keys)
    ensures forall i :: 0 <= i < |rows| ==> rows[i][0] in keys
    ensures forall i :: 0 <= i < |items| ==> items[i].itemKey in keys
  {
    var all := RowKeys(rows) + ItemKeys(items);
    assert forall i :: 0 <= i < |rows| ==> all[i] == rows[i][0];
    assert forall i :: 0 <= i < |items| ==> all[|rows| + i] == items[i].itemKey;
    Dedup(all)
  }

  /** Key k has to change for the remote map to become the local one. */
  predicate Differs(remote: map<string, string>, local: map<string, string>, k: string)
  {
    (k in remote) != (k in local) || (k in remote && k in local && remote[k] != local[k])
  }

  function ChangeFor(remote: map<string, string>, local: map<string, string>, k: string): seq<Change>
  {
    if k in local && k !in remote then [Change(CREATE, k, local[k])]
    else if k in remote && k !in local then [Change(DELETE, k, "")]
    else if k in remote && k in local && remote[k] != local[k] then [Change(UPDATE, k, local[k])]
    else []
  }

  /** The changelog over the keys in `keys`, in that order. */
  function Changes(remote: map<string, string>, local: map<string, string>, keys: seq<string>): seq<Change>
  {
    if keys == [] then [] else ChangeFor(remote, local, keys[0]) + Changes(remote, local, keys[1..])
  }

  /** The batch item a changelog entry becomes; a delete carries no value. */
  function ToBatchItem(c: Change): BatchUpdateDictionaryItem
  {
    match c.kind
    case CREATE => BatchUpdateDictionaryItem(CreateBatchOperation, c.key, c.to)
    case DELETE => BatchUpdateDictionaryItem(DeleteBatchOperation, c.key, "")
    case UPDATE => BatchUpdateDictionaryItem(UpdateBatchOperation, c.key, c.to)
  }

  function Operations(changes: seq<Change>): (ops: seq<BatchUpdateDictionaryItem>)
  {
    seq(|changes|, i requires 0 <= i < |changes| => ToBatchItem(changes[i]))
  }

  /** What one batch operation does to a dictionary. */
  function ApplyOp(m: map<string, string>, op: BatchUpdateDictionaryItem): map<string, string>
  {
    match op.operation
    case DeleteBatchOperation => m - {op.key}
    case _ => m[op.key := op.value]
  }

  /** What a sequence of batch operations does, applied in order. */
  function ApplyOps(m: map<string, string>, ops: seq<BatchUpdateDictionaryItem>): map<string, string>
    decreases |ops|
  {
    if ops == [] then m else ApplyOps(ApplyOp(m, ops[0]), ops[1..])
  }

  lemma {:induction false} ApplyOpsAppend(m: map<string, string>, a: seq<BatchUpdateDictionaryItem>, b: seq<BatchUpdateDictionaryItem>)
    ensures ApplyOps(m, a + b) == ApplyOps(ApplyOps(m, a), b)
    decreases |a|
  {
    if a != [] {
      assert (a + b)[0] == a[0] && (a + b)[1..] == a[1..] + b;
      ApplyOpsAppend(ApplyOp(m, a[0]), a[1..], b);
      assert ApplyOps(m, a + b) == ApplyOps(ApplyOp(m, a[0]), a[1..] + b);
    } else {
      assert a + b == b;
    }
  }

  lemma OperationsAppend(a: seq<Change>, b: seq<Change>)
    ensures Operations(a + b) == Operations(a) + Operations(b)
  {
    assert forall i :: 0 <= i < |a + b| ==> Operations(a + b)[i] == (Operations(a) + Operations(b))[i];
  }

  /** Applying the changelog over `keys` to any map that agrees with the
      remote one on those keys makes it agree with the local map on them and
      leaves every other key alone. */
  lemma {:induction false} ApplyChangesAgrees(m: map<string, string>, remote: map<string, string>, local: map<string, string>, keys: seq<string>)
    requires NoDup(keys)
    requires forall k :: k in keys ==> (k in m <==> k in remote) && (k in m ==> m[k] == remote[k])
    ensures var r := ApplyOps(m, Operations(Changes(remote, local, keys)));
            (forall k :: k in keys ==> (k in r <==> k in local) && (k in r ==> r[k] == local[k])) &&
            (forall k :: k !in keys ==> (k in r <==> k in m) && (k in r ==> r[k] == m[k]))
    decreases |keys|
  {
    if keys != [] {
      var k0, rest := keys[0], keys[1..];
      var head := ChangeFor(remote, local, k0);
      var first := Operations(head);
      var m' := ApplyOps(m, first);
      if head != [] {
        assert first == [ToBatchItem(head[0])];
        assert first[1..] == [];
        assert m' == ApplyOps(ApplyOp(m, first[0]), []);
      }
      assert (k0 in m' <==> k0 in local) && (k0 in m' ==> m'[k0] == local[k0]);
      assert forall k :: k != k0 ==> (k in m' <==> k in m) && (k in m' ==> m'[k] == m[k]);
      assert forall k :: k in rest ==> k != k0 && k in keys by {
        forall k | k in rest ensures k != k0 && k in keys {
          var j :| 0 <= j < |rest| && rest[j] == k;
          assert keys[j + 1] == k;
        }
      }
      assert NoDup(rest) by {
        forall i, j | 0 <= i < j < |rest| ensures rest[i] != rest[j] {
          assert keys[i + 1] != keys[j + 1];
        }
      }
      OperationsAppend(head, Changes(remote, local, rest));
      ApplyOpsAppend(m, first, Operations(Changes(remote, local, rest)));
      ApplyChangesAgrees(m', remote, local, rest);
    }
  }

  /** The end-state property: when `keys` lists every remote and every
      local key once, applying the changelog to the remote map gives exactly
      the local map. */
  lemma DiffReachesLocal(remote: map<string, string>, local: map<string, string>, keys: seq<string>)
    requires NoDup(keys)
    requires forall k :: k in remote ==> k in keys
    requires forall k :: k in local ==> k in keys
    ensures ApplyOps(remote, Operations(Changes(remote, local, keys))) == local
  {
    ApplyChangesAgrees(remote, remote, local, keys);
    var r := ApplyOps(remote, Operations(Changes(remote, local, keys)));
    assert forall k :: k in r <==> k in local;
  }

  /** Every entry is the one the key calls for: a create of the local value
      for a local-only key, a delete for a remote-only key, an update to the
      local value for a key whose values differ. */
  lemma {:induction false} ChangesAreJustified(remote: map<string, string>, local: map<string, string>, keys: seq<string>)
    ensures forall c :: c in Changes(remote, local, keys) ==>
              && c.key in keys
              && (c.kind == CREATE ==> c.key in local && c.key !in remote && c.to == local[c.key])
              && (c.kind == DELETE ==> c.key in remote && c.key !in local)
              && (c.kind == UPDATE ==> c.key in remote && c.key in local && remote[c.key] != local[c.key] && c.to == local[c.key])
  {
    if keys != [] {
      ChangesAreJustified(remote, local, keys[1..]);
      var head := ChangeFor(remote, local, keys[0]);
      assert forall c :: c in Changes(remote, local, keys) ==> c in head || c in Changes(remote, local, keys[1..]);
    }
  }

  function ChangeKeys(changes: seq<Change>): (keys: seq<string>)
  {
    seq(|changes|, i requires 0 <= i < |changes| => changes[i].key)
  }

  /** Exactly one entry per key that differs, and none for a key whose
      value is the same on both sides. */
  lemma {:induction false} ChangesCoverDifferences(remote: map<string, string>, local: map<string, string>, keys: seq<string>)
    requires NoDup(keys)
    ensures NoDup(ChangeKeys(Changes(remote, local, keys)))
    ensures forall k :: k in ChangeKeys(Changes(remote, local, keys)) ==> k in keys
    ensures forall k :: k in keys ==> (k in ChangeKeys(Changes(remote, local, keys)) <==> Differs(remote, local, k))
  {
    if keys != [] {
      var k0, rest := keys[0], keys[1..];
      assert NoDup(rest) by {
        forall i, j | 0 <= i < j < |rest| ensures rest[i] != rest[j] {
          assert keys[i + 1] != keys[j + 1];
        }
      }
      assert k0 !in rest by {
        forall j | 0 <= j < |rest| ensures rest[j] != k0 {
          assert keys[0] != keys[j + 1];
        }
      }
      assert forall k :: k in keys ==> k == k0 || k in rest by {
        forall k | k in keys ensures k == k0 || k in rest {
          var j :| 0 <= j < |keys| && keys[j] == k;
          if j > 0 { assert rest[j - 1] == k; }
        }
      }
      ChangesCoverDifferences(remote, local, rest);
      var head := ChangeFor(remote, local, k0);
      var tail := Changes(remote, local, rest);
      assert Changes(remote, local, keys) == head + tail;
      assert ChangeKeys(head + tail) == ChangeKeys(head) + ChangeKeys(tail);
      assert ChangeKeys(head) == if Differs(remote, local, k0) then [k0] else [];
    }
  }

  /** Diffing a map against itself yields nothing: a second sync right after
      a successful one sends no operation. */
  lemma {:induction false} NoChangesWhenEqual(m: map<string, string>, keys: seq<string>)
    ensures Changes(m, m, keys) == []
  {
    if keys != [] {
      NoChangesWhenEqual(m, keys[1..]);
    }
  }
}
