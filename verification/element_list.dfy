/**
 * util.h's generate_list instantiated for Elements (headify.c line 18): a
 * singly linked list with first and last pointers, built by appending.
 * Each node carries one Element and the link to the next node.
 */
module ElementList {
  import opened Types

  class Node {
    const elem: Element
    var next: Node?

    constructor (e: Element)
      ensures elem == e && next == null
    {
      elem := e;
      next := null;
    }
  }

  /** The elements the nodes ns carry, in order. */
  ghost function ElementsOf(ns: seq<Node>): (s: seq<Element>)
    ensures |s| == |ns|
    ensures forall i :: 0 <= i < |ns| ==> s[i] == ns[i].elem
  {
    if |ns| == 0 then [] else ElementsOf(ns[..|ns| - 1]) + [ns[|ns| - 1].elem]
  }

  class List {
    var first: Node?
    var last: Node?
    // The nodes reachable from first, in link order.
    ghost var Nodes: seq<Node>

    ghost predicate Valid()
      reads this, Nodes
    {
      && (|Nodes| == 0 ==> first == null && last == null)
      && (|Nodes| > 0 ==>
            first == Nodes[0] && last == Nodes[|Nodes| - 1] && Nodes[|Nodes| - 1].next == null)
      && (forall i :: 0 <= i < |Nodes| - 1 ==> Nodes[i].next == Nodes[i + 1])
      && (|Nodes| > 0 ==> last !in Nodes[..|Nodes| - 1])
    }

    /** The elements of the list, from first to last. */
    ghost function Contents(): (s: seq<Element>)
      reads this
      ensures |s| == |Nodes|
      ensures forall i :: 0 <= i < |Nodes| ==> s[i] == Nodes[i].elem
    {
      ElementsOf(Nodes)
    }

    /** The empty list {NULL, NULL}. */
    constructor ()
      ensures Valid() && Nodes == [] && Contents() == []
      ensures first == null && last == null
    {
      first := null;
      last := null;
      Nodes := [];
    }

    /**
     * elements_append: an empty list gets the node as both first and last;
     * otherwise the node is linked after the old last and becomes last, and
     * first is unchanged.
     */
    method Append(n: Node)
      requires Valid() && n !in Nodes && n.next == null
      modifies this, last
      ensures Valid()
      ensures Nodes == old(Nodes) + [n]
      ensures Contents() == old(Contents()) + [n.elem]
      ensures old(first) == null ==> first == n && last == n
      ensures old(first) != null ==> first == old(first) && old(last).next == n && last == n
    {
      if first == null {
        first := n;
        last := n;
      } else {
        last.next := n;
        last := n;
      }
      Nodes := Nodes + [n];
    }
  }
}
