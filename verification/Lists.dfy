/**
  The linked lists of the C code. A node has an identity, which stands for its address, and a content;
  the content is replaced in place, nodes are appended at the end and unlinked from anywhere.
 */
module Lists {
  import opened Wrappers

  type Id = int

  datatype Node<T> = Node(id: Id, val: T)

  type List<T> = seq<Node<T>>

  predicate Has<T>(l: List<T>, id: Id) {
    exists i :: 0 <= i < |l| && l[i].id == id
  }

  ghost predicate Distinct<T>(l: List<T>) {
    forall i, j :: 0 <= i < j < |l| ==> l[i].id != l[j].id
  }

  /** The content of the first node with this identity. */
  function Find<T>(l: List<T>, id: Id): (r: Option<T>)
    ensures r.Some? <==> Has(l, id)
    ensures r.Some? ==> exists i :: 0 <= i < |l| && l[i] == Node(id, r.value)
  {
    if l == [] then None
    else if l[0].id == id then
      assert l[0] == Node(id, l[0].val);
      Some(l[0].val)
    else
      var r := Find(l[1..], id);
      assert r.Some? ==> exists i :: 0 <= i < |l[1..]| && l[1..][i] == Node(id, r.value) && l[i + 1] == l[1..][i];
      assert Has(l, id) ==> exists i :: 1 <= i < |l| && l[i].id == id && l[1..][i - 1] == l[i];
      r
  }

  /** Replacing the content of a node. */
  function Put<T>(l: List<T>, id: Id, v: T): (r: List<T>)
    ensures |r| == |l|
    ensures forall i :: 0 <= i < |l| ==> r[i] == if l[i].id == id then Node(id, v) else l[i]
  {
    seq(|l|, i requires 0 <= i < |l| => if l[i].id == id then Node(id, v) else l[i])
  }

  /** Unlinking the first node with this identity. */
  function Remove<T>(l: List<T>, id: Id): (r: List<T>)
    ensures |r| == if Has(l, id) then |l| - 1 else |l|
  {
    if l == [] then []
    else if l[0].id == id then
      assert l[0].id == id;
      l[1..]
    else
      assert Has(l, id) ==> exists i :: 1 <= i < |l| && l[i].id == id && l[1..][i - 1] == l[i];
      assert Has(l[1..], id) ==> exists i :: 0 <= i < |l[1..]| && l[1..][i].id == id && l[i + 1] == l[1..][i];
      [l[0]] + Remove(l[1..], id)
  }

  lemma FindAt<T>(l: List<T>, i: nat)
    requires Distinct(l) && i < |l|
    ensures Find(l, l[i].id) == Some(l[i].val)
  {
    if i > 0 {
      assert l[0].id != l[i].id;
      FindAt(l[1..], i - 1);
    }
  }

  lemma PutDistinct<T>(l: List<T>, id: Id, v: T)
    requires Distinct(l)
    ensures Distinct(Put(l, id, v))
  {
    var r := Put(l, id, v);
    forall i, j | 0 <= i < j < |r| ensures r[i].id != r[j].id {
      assert r[i].id == l[i].id && r[j].id == l[j].id;
    }
  }

  /** After a replacement only that node reads differently. */
  lemma FindPut<T>(l: List<T>, id: Id, v: T, k: Id)
    ensures Find(Put(l, id, v), k) == if k == id && Has(l, id) then Some(v) else Find(l, k)
  {
    if l != [] {
      assert Put(l, id, v)[1..] == Put(l[1..], id, v);
      assert Has(l, id) ==> l[0].id == id || exists i :: 0 <= i < |l[1..]| && l[1..][i].id == id by {
        if Has(l, id) && l[0].id != id {
          var i :| 0 <= i < |l| && l[i].id == id;
          assert l[1..][i - 1].id == id;
        }
      }
      assert Has(l[1..], id) ==> Has(l, id) by {
        if Has(l[1..], id) {
          var i :| 0 <= i < |l[1..]| && l[1..][i].id == id;
          assert l[i + 1].id == id;
        }
      }
      FindPut(l[1..], id, v, k);
    }
  }

  /** After an unlinking only that node is gone. */
  lemma FindRemove<T>(l: List<T>, id: Id, k: Id)
    requires Distinct(l)
    ensures Distinct(Remove(l, id))
    ensures Find(Remove(l, id), k) == if k == id then None else Find(l, k)
  {
    if l != [] {
      FindRemove(l[1..], id, k);
      var r := Remove(l, id);
      if l[0].id == id {
        assert forall i :: 0 <= i < |l[1..]| ==> l[1..][i].id != id;
      } else {
        assert r[1..] == Remove(l[1..], id);
        FindRemove(l[1..], id, l[0].id);
        assert !Has(l[1..], l[0].id);
        assert !Has(r[1..], l[0].id);
        forall i, j | 0 <= i < j < |r| ensures r[i].id != r[j].id {
          if i == 0 {
            assert r[1..][j - 1] == r[j];
          } else {
            assert r[1..][i - 1] == r[i] && r[1..][j - 1] == r[j];
          }
        }
      }
    }
  }

  lemma FindAppend<T>(l: List<T>, n: Node<T>, k: Id)
    ensures Find(l + [n], k) == if Has(l, k) then Find(l, k) else if k == n.id then Some(n.val) else None
  {
    if l != [] {
      assert (l + [n])[1..] == l[1..] + [n];
      FindAppend(l[1..], n, k);
    } else {
      assert l + [n] == [n];
      assert [n][1..] == [];
    }
  }

  lemma AppendDistinct<T>(l: List<T>, n: Node<T>)
    requires Distinct(l) && !Has(l, n.id)
    ensures Distinct(l + [n])
  {
  }

  /** Every node of a shortened list is one of the list. */
  lemma RemoveKeeps<T>(l: List<T>, id: Id, i: nat)
    requires i < |Remove(l, id)|
    ensures exists j :: 0 <= j < |l| && l[j] == Remove(l, id)[i]
  {
    if l[0].id == id {
      assert l[i + 1] == Remove(l, id)[i];
    } else if i == 0 {
      assert l[0] == Remove(l, id)[i];
    } else {
      RemoveKeeps(l[1..], id, i - 1);
      var j :| 0 <= j < |l[1..]| && l[1..][j] == Remove(l[1..], id)[i - 1];
      assert l[j + 1] == Remove(l, id)[i];
    }
  }

  // the same facts for all identities at once

  lemma PutAll<T>(l: List<T>, id: Id, v: T)
    requires Distinct(l)
    ensures Distinct(Put(l, id, v))
    ensures forall k :: Find(Put(l, id, v), k) == if k == id && Has(l, id) then Some(v) else Find(l, k)
  {
    PutDistinct(l, id, v);
    forall k ensures Find(Put(l, id, v), k) == if k == id && Has(l, id) then Some(v) else Find(l, k) {
      FindPut(l, id, v, k);
    }
  }

  lemma RemoveAll<T>(l: List<T>, id: Id)
    requires Distinct(l)
    ensures Distinct(Remove(l, id))
    ensures forall k :: Find(Remove(l, id), k) == if k == id then None else Find(l, k)
  {
    FindRemove(l, id, id);
    forall k ensures Find(Remove(l, id), k) == if k == id then None else Find(l, k) {
      FindRemove(l, id, k);
    }
  }

  lemma AppendAll<T>(l: List<T>, n: Node<T>)
    requires Distinct(l) && Find(l, n.id).None?
    ensures Distinct(l + [n])
    ensures forall k :: Find(l + [n], k) == if k == n.id then Some(n.val) else Find(l, k)
  {
    AppendDistinct(l, n);
    forall k ensures Find(l + [n], k) == if k == n.id then Some(n.val) else Find(l, k) {
      FindAppend(l, n, k);
    }
  }

  /** The node found first is the one read and the one unlinked. */
  lemma FirstNode<T>(l: List<T>, i: nat)
    requires i < |l| && forall j :: 0 <= j < i ==> l[j].id != l[i].id
    ensures Find(l, l[i].id) == Some(l[i].val)
    ensures Remove(l, l[i].id) == l[..i] + l[i + 1..]
  {
    FirstRead(l, l[i], i);
    FirstUnlinked(l, l[i].id, i);
  }

  lemma FirstRead<T>(l: List<T>, n: Node<T>, i: nat)
    requires i < |l| && l[i] == n && forall j :: 0 <= j < i ==> l[j].id != n.id
    ensures Find(l, n.id) == Some(n.val)
  {
    if i > 0 {
      var tail := l[1..];
      forall j | 0 <= j < i - 1 ensures tail[j].id != n.id {
        assert tail[j] == l[j + 1];
      }
      FirstRead(tail, n, i - 1);
    }
  }

  lemma FirstUnlinked<T>(l: List<T>, id: Id, i: nat)
    requires i < |l| && l[i].id == id && forall j :: 0 <= j < i ==> l[j].id != id
    ensures Remove(l, id) == l[..i] + l[i + 1..]
  {
    if i > 0 {
      var tail := l[1..];
      forall j | 0 <= j < i - 1 ensures tail[j].id != id {
        assert tail[j] == l[j + 1];
      }
      FirstUnlinked(tail, id, i - 1);
      Prepend(l, i);
    }
  }

  lemma Prepend<T>(l: List<T>, i: nat)
    requires 0 < i < |l|
    ensures [l[0]] + (l[1..][..i - 1] + l[1..][i..]) == l[..i] + l[i + 1..]
  {
    assert l[1..][i..] == l[i + 1..];
    assert [l[0]] + l[1..][..i - 1] == l[..i];
  }

  /** `list_walk_entry_forward` until the node is found. */
  method Walk<T>(l: List<T>, id: Id) returns (at: Option<nat>)
    ensures at.Some? <==> Has(l, id)
    ensures at.Some? ==> at.value < |l| && l[at.value].id == id && Find(l, id) == Some(l[at.value].val)
    ensures at.Some? ==> Remove(l, id) == l[..at.value] + l[at.value + 1..]
  {
    for i := 0 to |l|
      invariant forall j :: 0 <= j < i ==> l[j].id != id
    {
      if l[i].id == id {
        FirstNode(l, i);
        return Some(i);
      }
    }
    return None;
  }
}
