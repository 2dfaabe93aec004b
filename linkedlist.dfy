/*
 * The singly linked, singly ended list the commands are stored in
 * (linkedlist.h, listoperations.c). The nodes are heap objects whose `next`
 * pointers the inserts rewrite; the ghost sequence `Nodes` names them in list
 * order and `Contents` is what they hold.
 */
module LinkedLists {

  /** LinkedListNode: one value and the pointer to the following node. */
  class Node<T> {
    var data: T
    var next: Node?<T>

    constructor (data: T, next: Node?<T>)
      ensures this.data == data && this.next == next
    {
      this.data := data;
      this.next := next;
    }
  }

  /** LinkedList: a pointer to the first node, NULL when the list is empty. */
  class LinkedList<T> {
    var head: Node?<T>
    ghost var Nodes: seq<Node<T>>
    ghost var Contents: seq<T>
    ghost var Repr: set<object>

    /** The nodes from head onwards are chained by `next`, the last one points to
        NULL, and node i holds element i of Contents. */
    ghost predicate Valid()
      reads this, Repr
    {
      this in Repr
      && |Nodes| == |Contents|
      && (forall i :: 0 <= i < |Nodes| ==> Nodes[i] in Repr)
      && (head == null <==> Nodes == [])
      && (Nodes != [] ==> head == Nodes[0] && Nodes[|Nodes| - 1].next == null)
      && (forall i :: 0 <= i < |Nodes| ==> Nodes[i].data == Contents[i])
      && (forall i :: 0 <= i < |Nodes| - 1 ==> Nodes[i].next == Nodes[i + 1])
    }

    /** constructList: a list whose head is NULL, that is an empty list. */
    constructor ()
      ensures Valid() && fresh(Repr)
      ensures Contents == []
    {
      head := null;
      Nodes := [];
      Contents := [];
      Repr := {this};
    }

    /** insertFirst: the value becomes the first element, the old elements follow
        in their order. */
    method InsertFirst(value: T)
      requires Valid()
      modifies this
      ensures Valid() && fresh(Repr - old(Repr))
      ensures Contents == [value] + old(Contents)
    {
      var node := new Node(value, head);
      head := node;
      Nodes := [node] + Nodes;
      Contents := [value] + Contents;
      Repr := Repr + {node};
    }

    /** insertLast: walks from the head to the node whose `next` is NULL and
        links the new node there; the value becomes the last element and the
        old elements keep their order. */
    method InsertLast(value: T)
      requires Valid()
      modifies this, Repr
      ensures Valid() && fresh(Repr - old(Repr))
      ensures Contents == old(Contents) + [value]
    {
      var node := new Node(value, null);
      var current := head;
      if current == null {
        head := node;
      } else {
        ghost var k := 0;
        while current.next != null
          invariant Valid() && 0 <= k < |Nodes| && current == Nodes[k]
          invariant k < |Nodes| - 1 ==> current.next == Nodes[k + 1]
          decreases |Nodes| - k
        {
          current := current.next;
          k := k + 1;
        }
        // Every node before the tail points somewhere, so none of them is `current`.
        forall i | 0 <= i < k ensures Nodes[i] != current {
          assert Nodes[i].next == Nodes[i + 1];
        }
        current.next := node;
        assert forall i :: 0 <= i < k ==> Nodes[i].next == Nodes[i + 1];
      }
      Nodes := Nodes + [node];
      Contents := Contents + [value];
      Repr := Repr + {node};
    }

    /** isEmpty: -1 when the head is NULL, which is when nothing is stored,
        otherwise 0. */
    method IsEmpty() returns (isEmpty: int)
      requires Valid()
      ensures isEmpty == -1 <==> Contents == []
      ensures isEmpty == 0 <==> Contents != []
    {
      isEmpty := 0;
      if head == null {
        isEmpty := -1;
      }
    }
  }
}
