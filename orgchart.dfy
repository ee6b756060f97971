/**
 * The org-chart edits (src/components/OrgChart.tsx): adding a node at the
 * root or under a parent, removing a subtree and updating a node, each a
 * recursive walk that returns a new forest.
 */
module OrgChart {
  import opened Wrappers
  import opened Types
  import Seqs

  const NewNodeName := "Neue Position"
  const NewNodeRole := "Rolle eingeben"

  /** The leaf `addNode` creates: a single node carrying the new id, with the placeholder labels. */
  function NewNode(id: Id): (r: OrgNode)
    ensures Ids([r]) == [id] && r.children == []
    ensures r.name == NewNodeName && r.role == NewNodeRole
  {
    OrgNode(id, NewNodeName, NewNodeRole, [])
  }

  /** The ids of every node of the forest, in pre-order; its length is the node count. */
  function Ids(ns: seq<OrgNode>): seq<Id> {
    if ns == [] then [] else [ns[0].id] + Ids(ns[0].children) + Ids(ns[1..])
  }

  /** The ids of the roots, in order. */
  function RootIds(ns: seq<OrgNode>): seq<Id> {
    if ns == [] then [] else [ns[0].id] + RootIds(ns[1..])
  }

  /** How many nodes of the forest carry `id`. */
  function Occurrences(ns: seq<OrgNode>, id: Id): nat {
    multiset(Ids(ns))[id]
  }

  lemma {:induction false} IdsConcat(a: seq<OrgNode>, b: seq<OrgNode>)
    ensures Ids(a + b) == Ids(a) + Ids(b)
  {
    if a == [] {
      assert a + b == b;
    } else {
      assert (a + b)[0] == a[0] && (a + b)[1..] == a[1..] + b;
      IdsConcat(a[1..], b);
    }
  }

  // ------------------------------------------------------------------ add

  /**
   * The inner `updateNode` of `addNode`: appends `node` as the last child of
   * every node whose id is `parentId`, without looking below such a node.
   */
  function AddUnder(ns: seq<OrgNode>, parentId: Id, node: OrgNode): (r: seq<OrgNode>)
    ensures |r| == |ns|
    ensures forall i :: 0 <= i < |ns| ==>
      r[i].id == ns[i].id && r[i].name == ns[i].name && r[i].role == ns[i].role
    ensures forall i :: 0 <= i < |ns| && ns[i].id == parentId ==>
      r[i].children == ns[i].children + [node]
    ensures parentId !in Ids(ns) ==> r == ns
  {
    if ns == [] then []
    else
      var n := ns[0];
      var first := if n.id == parentId then n.(children := n.children + [node])
                   else n.(children := AddUnder(n.children, parentId, node));
      [first] + AddUnder(ns[1..], parentId, node)
  }

  /** An unmatched node keeps its labels and has `node` added below it, at any depth. */
  lemma {:induction false} AddUnderAt(ns: seq<OrgNode>, parentId: Id, node: OrgNode, i: nat)
    requires i < |ns| && ns[i].id != parentId
    ensures AddUnder(ns, parentId, node)[i] == ns[i].(children := AddUnder(ns[i].children, parentId, node))
  {
    if i > 0 {
      AddUnderAt(ns[1..], parentId, node, i - 1);
    }
  }

  /** `addNode`: no parent (or an empty parent id) appends a new root; otherwise adds under the parent. */
  function AddNode(data: seq<OrgNode>, parentId: Option<Id>, newId: Id): (r: seq<OrgNode>)
    ensures parentId.None? || parentId.value == "" ==> r == data + [NewNode(newId)]
    ensures parentId.Some? && parentId.value != "" ==>
      r == AddUnder(data, parentId.value, NewNode(newId))
    ensures parentId.Some? && parentId.value != "" ==>
      |r| == |data| && RootIds(r) == RootIds(data)
  {
    if parentId.None? || parentId.value == "" then data + [NewNode(newId)]
    else
      var r := AddUnder(data, parentId.value, NewNode(newId));
      SameRootIds(r, data);
      r
  }

  lemma {:induction false} SameRootIds(a: seq<OrgNode>, b: seq<OrgNode>)
    requires |a| == |b| && forall i :: 0 <= i < |a| ==> a[i].id == b[i].id
    ensures RootIds(a) == RootIds(b)
  {
    if a != [] {
      SameRootIds(a[1..], b[1..]);
    }
  }

  lemma MultisetRegroup(a: multiset<Id>, b: multiset<Id>, c: multiset<Id>, d: multiset<Id>)
    ensures a + (b + d) + c == a + b + c + d
    ensures a + b + (c + d) == a + b + c + d
  {
  }

  /** Adding under a parent that occurs once adds exactly the new subtree's ids, and nothing else. */
  lemma {:induction false} AddUnderIds(ns: seq<OrgNode>, p: Id, node: OrgNode)
    requires Occurrences(ns, p) == 1
    ensures multiset(Ids(AddUnder(ns, p, node))) == multiset(Ids(ns)) + multiset(Ids([node]))
  {
    var n := ns[0];
    var rest := ns[1..];
    var r := AddUnder(ns, p, node);
    var tail := AddUnder(rest, p, node);
    assert r[1..] == tail;
    assert Ids(ns) == [n.id] + Ids(n.children) + Ids(rest);
    assert Ids(r) == [n.id] + Ids(r[0].children) + Ids(tail);
    var here := if n.id == p then 1 else 0;
    assert 1 == here + Occurrences(n.children, p) + Occurrences(rest, p) by {
      assert multiset(Ids(ns)) == multiset([n.id]) + multiset(Ids(n.children)) + multiset(Ids(rest));
    }
    var extra := multiset(Ids([node]));
    var before := multiset([n.id]) + multiset(Ids(n.children)) + multiset(Ids(rest));
    assert multiset(Ids(ns)) == before;
    var inFirst := multiset(Ids(r[0].children));
    assert multiset(Ids(r)) == multiset([n.id]) + inFirst + multiset(Ids(tail));
    var a, b, c := multiset([n.id]), multiset(Ids(n.children)), multiset(Ids(rest));
    MultisetRegroup(a, b, c, extra);
    if n.id == p {
      assert tail == rest;
      IdsConcat(n.children, [node]);
      assert inFirst == b + extra;
    } else if Occurrences(n.children, p) == 1 {
      AddUnderIds(n.children, p, node);
      assert tail == rest;
      assert inFirst == b + extra;
    } else {
      AddUnderIds(rest, p, node);
      assert r[0].children == n.children;
      assert multiset(Ids(tail)) == c + extra;
    }
  }

  /**
   * Adding increases the node count by exactly one, at the root or under a
   * parent whose id occurs once; under a missing parent nothing changes.
   */
  lemma AddNodeCount(data: seq<OrgNode>, parentId: Option<Id>, newId: Id)
    ensures parentId.Some? && parentId.value != "" && parentId.value !in Ids(data) ==>
      AddNode(data, parentId, newId) == data
    ensures (parentId.None? || parentId.value == "" || Occurrences(data, parentId.value) == 1) ==>
      |Ids(AddNode(data, parentId, newId))| == |Ids(data)| + 1
  {
    if parentId.None? || parentId.value == "" {
      IdsConcat(data, [NewNode(newId)]);
    } else if Occurrences(data, parentId.value) == 1 {
      AddUnderIds(data, parentId.value, NewNode(newId));
      assert |multiset(Ids(AddNode(data, parentId, newId)))| == |multiset(Ids(data))| + 1;
    }
  }

  // --------------------------------------------------------------- remove

  /**
   * `removeNode`'s `removeFromNodes`: drops every node with the id together
   * with its subtree, and recurses into the survivors (filter, then map).
   */
  function RemoveFrom(ns: seq<OrgNode>, id: Id): (r: seq<OrgNode>)
    ensures id !in Ids(r)
    ensures multiset(Ids(r)) <= multiset(Ids(ns))
    ensures id !in Ids(ns) ==> r == ns
  {
    if ns == [] then []
    else if ns[0].id == id then RemoveFrom(ns[1..], id)
    else
      var first := ns[0].(children := RemoveFrom(ns[0].children, id));
      var r := [first] + RemoveFrom(ns[1..], id);
      assert r[0] == first && r[1..] == RemoveFrom(ns[1..], id);
      r
  }

  /** The surviving roots keep their relative order: the root ids are filtered. */
  lemma {:induction false} RemoveKeepsRootOrder(ns: seq<OrgNode>, id: Id)
    ensures RootIds(RemoveFrom(ns, id)) == Seqs.Filter(RootIds(ns), (x: Id) => x != id)
  {
    if ns != [] {
      RemoveKeepsRootOrder(ns[1..], id);
      var r := RemoveFrom(ns, id);
      if ns[0].id != id {
        assert r[1..] == RemoveFrom(ns[1..], id);
      }
    }
  }

  /**
   * Below the roots nothing but the matching subtrees goes: the result holds,
   * in order, exactly the roots without the id, each with the id removed from
   * its children.
   */
  lemma {:induction false} RemoveKeepsSurvivors(ns: seq<OrgNode>, id: Id)
    ensures var kept := Seqs.Filter(ns, (n: OrgNode) => n.id != id);
      && |RemoveFrom(ns, id)| == |kept|
      && forall j :: 0 <= j < |kept| ==>
           RemoveFrom(ns, id)[j] == kept[j].(children := RemoveFrom(kept[j].children, id))
  {
    if ns != [] {
      RemoveKeepsSurvivors(ns[1..], id);
      var r := RemoveFrom(ns, id);
      if ns[0].id != id {
        assert r[1..] == RemoveFrom(ns[1..], id);
      }
    }
  }

  /** Removing twice is removing once. */
  lemma RemoveIdempotent(ns: seq<OrgNode>, id: Id)
    ensures RemoveFrom(RemoveFrom(ns, id), id) == RemoveFrom(ns, id)
  {
  }

  // --------------------------------------------------------------- update

  /** A `Partial<OrgNode>`. */
  datatype NodePatch = NodePatch(id: Field<Id>, name: Field<string>, role: Field<string>,
                                 children: Field<seq<OrgNode>>)
  {
    /** `{ ...node, ...this }` */
    function ApplyTo(n: OrgNode): OrgNode {
      OrgNode(id.Or(n.id), name.Or(n.name), role.Or(n.role), children.Or(n.children))
    }

    /** The patch sets at most the name and the role, as the chart's inputs do. */
    predicate LabelsOnly() {
      id.Keep? && children.Keep?
    }
  }

  /**
   * `updateNode`'s `updateInNodes`: spreads the updates over every node with
   * the id, without looking below such a node.
   */
  function UpdateIn(ns: seq<OrgNode>, id: Id, updates: NodePatch): (r: seq<OrgNode>)
    ensures |r| == |ns|
    ensures forall i :: 0 <= i < |ns| && ns[i].id == id ==> r[i] == updates.ApplyTo(ns[i])
    ensures id !in Ids(ns) ==> r == ns
  {
    if ns == [] then []
    else
      var n := ns[0];
      var first := if n.id == id then updates.ApplyTo(n)
                   else n.(children := UpdateIn(n.children, id, updates));
      [first] + UpdateIn(ns[1..], id, updates)
  }

  /** A node's id, name and role. */
  datatype Label = Label(id: Id, name: string, role: string)

  /** The labels of every node, in pre-order. */
  function Labels(ns: seq<OrgNode>): seq<Label> {
    if ns == [] then []
    else [Label(ns[0].id, ns[0].name, ns[0].role)] + Labels(ns[0].children) + Labels(ns[1..])
  }

  /** Position by position the same ids, and the same labels wherever the id is not `id`. */
  predicate AgreeExcept(xs: seq<Label>, ys: seq<Label>, id: Id) {
    |xs| == |ys| &&
    forall k :: 0 <= k < |xs| ==> xs[k].id == ys[k].id && (ys[k].id != id ==> xs[k] == ys[k])
  }

  lemma AgreeExceptConcat(a: seq<Label>, b: seq<Label>, c: seq<Label>, d: seq<Label>, id: Id)
    requires AgreeExcept(a, c, id) && AgreeExcept(b, d, id)
    ensures AgreeExcept(a + b, c + d, id)
  {
  }

  /** Two forests with the same ids at the same places, at every depth. */
  predicate SameShape(a: seq<OrgNode>, b: seq<OrgNode>) {
    |a| == |b| &&
    forall i :: 0 <= i < |a| ==> a[i].id == b[i].id && SameShape(a[i].children, b[i].children)
  }

  lemma {:induction false} SameShapeRefl(a: seq<OrgNode>)
    ensures SameShape(a, a)
  {
    forall i | 0 <= i < |a| ensures SameShape(a[i].children, a[i].children) {
      SameShapeRefl(a[i].children);
    }
  }

  /**
   * An update of name and role keeps the tree's shape, and changes the
   * labels of the nodes with the id only.
   */
  lemma {:induction false} UpdateKeepsShape(ns: seq<OrgNode>, id: Id, updates: NodePatch)
    requires updates.LabelsOnly()
    ensures SameShape(UpdateIn(ns, id, updates), ns)
  {
    var r := UpdateIn(ns, id, updates);
    forall i | 0 <= i < |ns|
      ensures r[i].id == ns[i].id && SameShape(r[i].children, ns[i].children)
    {
      if ns[i].id == id {
        SameShapeRefl(ns[i].children);
      } else {
        UpdateAt(ns, id, updates, i);
        UpdateKeepsShape(ns[i].children, id, updates);
      }
    }
  }

  /** An unmatched node keeps its labels and has its children updated. */
  lemma {:induction false} UpdateAt(ns: seq<OrgNode>, id: Id, updates: NodePatch, i: nat)
    requires i < |ns| && ns[i].id != id
    ensures UpdateIn(ns, id, updates)[i] == ns[i].(children := UpdateIn(ns[i].children, id, updates))
  {
    if i > 0 {
      UpdateAt(ns[1..], id, updates, i - 1);
    }
  }

  /** The pre-order labels after a name/role update agree with the old ones except at the id. */
  lemma {:induction false} UpdateKeepsLabels(ns: seq<OrgNode>, id: Id, updates: NodePatch)
    requires updates.LabelsOnly()
    ensures AgreeExcept(Labels(UpdateIn(ns, id, updates)), Labels(ns), id)
    ensures Ids(UpdateIn(ns, id, updates)) == Ids(ns)
  {
    if ns != [] {
      var n := ns[0];
      var r := UpdateIn(ns, id, updates);
      var first := r[0];
      assert r[1..] == UpdateIn(ns[1..], id, updates);
      UpdateKeepsLabels(ns[1..], id, updates);
      var hd := [Label(first.id, first.name, first.role)];
      if n.id == id {
        assert first.children == n.children;
        assert AgreeExcept(Labels(n.children), Labels(n.children), id);
      } else {
        UpdateKeepsLabels(n.children, id, updates);
      }
      AgreeExceptConcat(hd, Labels(first.children), [Label(n.id, n.name, n.role)], Labels(n.children), id);
      AgreeExceptConcat(hd + Labels(first.children), Labels(r[1..]),
                        [Label(n.id, n.name, n.role)] + Labels(n.children), Labels(ns[1..]), id);
    }
  }

  /** A name/role update keeps the node count. */
  lemma UpdateKeepsCount(ns: seq<OrgNode>, id: Id, updates: NodePatch)
    requires updates.LabelsOnly()
    ensures |Ids(UpdateIn(ns, id, updates))| == |Ids(ns)|
  {
    UpdateKeepsLabels(ns, id, updates);
  }
}
