/** The intrusive doubly linked list every kernel list is made of (os_list.c): nodes carry their own links,
    a list only its two ends. The models of the other modules use the sequence such a list spells. */
module IntrusiveList {
  import opened Sequences

  class Node {
    var next: Node?
    var prev: Node?

    constructor ()
      ensures next == null && prev == null
    {
      next, prev := null, null;
    }

    /** Linked nowhere, unless it is some list's only node. */
    predicate Loose()
      reads this
    {
      next == null && prev == null
    }
  }

  /** The node before position i, null for the first; and the one at or behind it. */
  function Before(s: seq<Node>, i: nat): Node?
    requires i <= |s|
  {
    if i == 0 then null else s[i - 1]
  }

  function AtOrEnd(s: seq<Node>, i: nat): Node? { if i < |s| then s[i] else null }

  ghost predicate Distinct(s: seq<Node>) { forall i, j :: 0 <= i < j < |s| ==> s[i] != s[j] }

  /** The links of these nodes spell the sequence. */
  ghost predicate Spells(s: seq<Node>)
    reads s
  {
    forall i :: 0 <= i < |s| ==> s[i].prev == Before(s, i) && s[i].next == AtOrEnd(s, i + 1)
  }

  class List {
    var head: Node?
    var tail: Node?
    /** The nodes from head to tail. */
    ghost var nodes: seq<Node>

    ghost predicate Valid()
      reads this, nodes
    {
      && Distinct(nodes) && Spells(nodes)
      && head == AtOrEnd(nodes, 0) && tail == Before(nodes, |nodes|)
    }

    constructor ()
      ensures Valid() && nodes == []
    {
      head, tail, nodes := null, null, [];
    }

    /** os_list_is_empty. */
    predicate IsEmpty()
      requires Valid()
      reads this, nodes
      ensures IsEmpty() <==> nodes == []
    {
      head == null
    }

    /** The pointer writes of os_list_push_back: the old last node, the new one and the ends change. */
    method Append(node: Node)
      requires Valid() && node !in nodes
      modifies this`head, this`tail, nodes, node
      ensures Appended(nodes, node) && head == (if nodes == [] then node else old(head)) && tail == node
    {
      assert nodes != [] ==> tail == nodes[|nodes| - 1];
      node.next := null;
      node.prev := tail;
      if tail != null { tail.next := node; } else { head := node; }
      tail := node;
      forall k | 0 <= k < |nodes|
        ensures nodes[k].prev == Before(nodes, k) && nodes[k].next == if k + 1 == |nodes| then node else AtOrEnd(nodes, k + 1)
      {
        assert old(nodes[k].prev) == Before(nodes, k) && old(nodes[k].next) == AtOrEnd(nodes, k + 1);
        Apart(nodes, k, |nodes| - 1);
      }
    }

    /** os_list_push_back. */
    method PushBack(node: Node)
      requires Valid() && node !in nodes
      modifies this, nodes, node
      ensures Valid() && nodes == old(nodes) + [node]
    {
      hide Distinct, Spells, Appended;
      ghost var was := nodes;
      Append(node);
      DistinctWith(was, |was|, node);
      assert was[..|was|] + [node] + was[|was|..] == was + [node];
      nodes := was + [node];
      AppendSpells(was, node);
    }

    /** os_list_pop_front: the node that comes out is loose. */
    method PopFront() returns (node: Node?)
      requires Valid()
      modifies this, nodes
      ensures Valid()
      ensures node == AtOrEnd(old(nodes), 0) && nodes == (if old(nodes) == [] then [] else old(nodes)[1..])
      ensures node != null ==> node.Loose() && node !in nodes
    {
      node := head;
      if node != null {
        head := node.next;
        if head != null { head.prev := null; } else { tail := null; }
        node.next := null;
        node.prev := null;
        nodes := nodes[1..];
      }
    }

    /** Whether a node is in this list can be read off the node, as long as it is here or nowhere. */
    lemma MembershipShows(node: Node)
      requires Valid() && (node in nodes || (node.Loose() && head != node))
      ensures node in nodes <==> node.prev != null || node.next != null || head == node
    {
      if node in nodes {
        var i :| 0 <= i < |nodes| && nodes[i] == node;
        assert node.prev == Before(nodes, i) && node.next == AtOrEnd(nodes, i + 1);
      }
    }

    /** Two neighbours, or an end and a neighbour, are tied together. */
    method Bridge(before: Node?, behind: Node?)
      requires (before != null ==> before in nodes) && (behind != null ==> behind in nodes)
      modifies this`head, this`tail, nodes
      ensures forall n :: n in nodes ==> n.next == (if n == before then behind else old(n.next))
      ensures forall n :: n in nodes ==> n.prev == (if n == behind then before else old(n.prev))
      ensures head == (if before == null then behind else old(head)) && tail == if behind == null then before else old(tail)
    {
      if before != null { before.next := behind; } else { head := behind; }
      if behind != null { behind.prev := before; } else { tail := before; }
    }

    /** The pointer writes of os_list_remove around position i: three nodes and the ends may change. */
    method Bypass(node: Node, ghost i: nat)
      requires Valid() && i < |nodes| && nodes[i] == node
      modifies this`head, this`tail, nodes
      ensures Bypassed(nodes, i) && node.Loose()
      ensures head == (if i == 0 then AtOrEnd(nodes, 1) else old(head)) && tail == (if i + 1 == |nodes| then Before(nodes, i) else old(tail))
    {
      assert node.prev == Before(nodes, i) && node.next == AtOrEnd(nodes, i + 1);
      Bridge(node.prev, node.next);
      forall k | 0 <= k < |nodes| && k != i
        ensures nodes[k].next == if k + 1 == i then AtOrEnd(nodes, i + 1) else AtOrEnd(nodes, k + 1)
      {
        assert nodes[k] in nodes && old(nodes[k].next) == AtOrEnd(nodes, k + 1);
        if i > 0 { Apart(nodes, k, i - 1); }
      }
      forall k | 0 <= k < |nodes| && k != i
        ensures nodes[k].prev == if k == i + 1 then Before(nodes, i) else Before(nodes, k)
      {
        assert nodes[k] in nodes && old(nodes[k].prev) == Before(nodes, k);
        if i + 1 < |nodes| { Apart(nodes, k, i + 1); }
      }
      forall k | 0 <= k < |nodes| && k != i ensures nodes[k] != node { Apart(nodes, k, i); }
      node.next := null;
      node.prev := null;
    }

    /** The node at position i leaves. */
    method RemoveAt(node: Node, ghost i: nat)
      requires Valid() && i < |nodes| && nodes[i] == node
      modifies this, nodes
      ensures Valid() && node !in nodes && node.Loose() && nodes == old(nodes)[..i] + old(nodes)[i + 1..]
    {
      hide Distinct, Spells, Bypassed;
      ghost var was := nodes;
      Bypass(node, i);
      DistinctWithout(was, i);
      nodes := was[..i] + was[i + 1..];
      BypassSpells(was, i);
      WithoutEnds(was, i);
    }

    /** os_list_remove: one node unlinked, wherever it stands; twice is harmless. */
    method Remove(node: Node)
      requires Valid() && (node in nodes || node.Loose())
      modifies this, nodes, node
      ensures Valid() && node !in nodes && node.Loose()
      ensures nodes == Without(old(nodes), node)
    {
      MembershipShows(node);
      if node.prev != null || node.next != null || head == node {
        ghost var i :| 0 <= i < |nodes| && nodes[i] == node;
        UnlinkIsWithout(nodes, i);
        hide *;
        RemoveAt(node, i);
      } else {
        WithoutAbsent(nodes, node);
      }
    }

    /** The pointer writes of os_list_insert_before in front of position i. */
    method Splice(position: Node, node: Node, ghost i: nat)
      requires Valid() && node !in nodes && i < |nodes| && position == nodes[i]
      modifies this`head, nodes, node
      ensures Spliced(nodes, i, node)
      ensures head == if i == 0 then node else old(head)
    {
      assert position.prev == Before(nodes, i);
      node.next := position;
      node.prev := position.prev;
      if position.prev != null { position.prev.next := node; } else { head := node; }
      position.prev := node;
      forall k | 0 <= k < |nodes|
        ensures nodes[k].next == (if k + 1 == i then node else AtOrEnd(nodes, k + 1))
        ensures nodes[k].prev == (if k == i then node else Before(nodes, k))
      {
        assert old(nodes[k].prev) == Before(nodes, k) && old(nodes[k].next) == AtOrEnd(nodes, k + 1);
      }
    }

    /** os_list_insert_before; at the end when no position is given. */
    method InsertBefore(position: Node?, node: Node, ghost i: nat)
      requires Valid() && node !in nodes && i <= |nodes| && position == AtOrEnd(nodes, i)
      modifies this, nodes, node
      ensures Valid() && nodes == old(nodes)[..i] + [node] + old(nodes)[i..]
    {
      hide Distinct, Spells, Spliced;
      ghost var was := nodes;
      if position == null {
        PushBack(node);
        assert was[..i] == was && was[i..] == [];
      } else {
        Splice(position, node, i);
        DistinctWith(was, i, node);
        nodes := was[..i] + [node] + was[i..];
        SpliceSpells(was, i, node);
        WithEnds(was, i, node);
      }
    }
  }

  /** Node i is skipped; every other link is as the sequence says. */
  ghost predicate Bypassed(s: seq<Node>, i: nat)
    reads s
  {
    forall k :: 0 <= k < |s| && k != i ==>
      && s[k].next == (if k + 1 == i then AtOrEnd(s, i + 1) else AtOrEnd(s, k + 1))
      && s[k].prev == (if k == i + 1 && i <= |s| then Before(s, i) else Before(s, k))
  }

  /** A node stands between positions i - 1 and i; every other link is as the sequence says. */
  ghost predicate Spliced(s: seq<Node>, i: nat, node: Node)
    reads s, node
  {
    && i < |s| && node.prev == Before(s, i) && node.next == s[i]
    && forall k :: 0 <= k < |s| ==>
      && s[k].next == (if k + 1 == i then node else AtOrEnd(s, k + 1))
      && s[k].prev == (if k == i then node else Before(s, k))
  }

  /** A node stands behind the last; every other link is as the sequence says. */
  ghost predicate Appended(s: seq<Node>, node: Node)
    reads s, node
  {
    && node.prev == Before(s, |s|) && node.next == null
    && forall k :: 0 <= k < |s| ==> s[k].prev == Before(s, k) && s[k].next == if k + 1 == |s| then node else AtOrEnd(s, k + 1)
  }

  lemma AppendSpells(was: seq<Node>, node: Node)
    requires Appended(was, node)
    ensures Spells(was + [node])
  {
    var s := was + [node];
    forall j | 0 <= j < |s| ensures s[j].prev == Before(s, j) && s[j].next == AtOrEnd(s, j + 1) {
      if j < |was| { assert s[j] == was[j]; }
    }
  }

  /** After the bypass the remaining nodes spell the shorter sequence. */
  lemma BypassSpells(was: seq<Node>, i: nat)
    requires i < |was| && Bypassed(was, i)
    ensures Spells(was[..i] + was[i + 1..])
  {
    var s := was[..i] + was[i + 1..];
    forall j | 0 <= j < |s| ensures s[j].prev == Before(s, j) && s[j].next == AtOrEnd(s, j + 1) {
      var k := if j < i then j else j + 1;
      assert s[j] == was[k];
    }
  }

  lemma SpliceSpells(was: seq<Node>, i: nat, node: Node)
    requires Spliced(was, i, node)
    ensures Spells(was[..i] + [node] + was[i..])
  {
    var s := was[..i] + [node] + was[i..];
    forall j | 0 <= j < |s| ensures s[j].prev == Before(s, j) && s[j].next == AtOrEnd(s, j + 1) {
      if j != i {
        var k := if j < i then j else j - 1;
        assert s[j] == was[k];
      }
    }
  }

  lemma WithoutEnds(s: seq<Node>, i: nat)
    requires i < |s|
    ensures var r := s[..i] + s[i + 1..];
            AtOrEnd(r, 0) == (if i == 0 then AtOrEnd(s, 1) else AtOrEnd(s, 0)) && Before(r, |r|) == if i + 1 == |s| then Before(s, i) else Before(s, |s|)
  {
  }

  lemma WithEnds(s: seq<Node>, i: nat, node: Node)
    requires i < |s|
    ensures var r := s[..i] + [node] + s[i..];
            AtOrEnd(r, 0) == (if i == 0 then node else AtOrEnd(s, 0)) && Before(r, |r|) == Before(s, |s|)
  {
  }

  lemma Apart(s: seq<Node>, i: nat, j: nat)
    requires Distinct(s) && i < |s| && j < |s|
    ensures s[i] == s[j] <==> i == j
  {
  }

  lemma DistinctWithout(s: seq<Node>, i: nat)
    requires Distinct(s) && i < |s|
    ensures Distinct(s[..i] + s[i + 1..]) && s[i] !in s[..i] + s[i + 1..]
  {
  }

  lemma DistinctWith(s: seq<Node>, i: nat, node: Node)
    requires Distinct(s) && i <= |s| && node !in s
    ensures Distinct(s[..i] + [node] + s[i..])
  {
  }

  /** Unlinking a node takes its first and only occurrence out of the sequence. */
  lemma {:induction false} UnlinkIsWithout(s: seq<Node>, i: nat)
    requires i < |s| && Distinct(s)
    ensures Without(s, s[i]) == s[..i] + s[i + 1..]
    decreases i
  {
    if i > 0 {
      assert s[0] != s[i];
      UnlinkIsWithout(s[1..], i - 1);
      assert s[1..][..i - 1] == s[..i][1..] && s[1..][i..] == s[i + 1..];
    }
  }
}
