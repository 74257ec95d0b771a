/** The node type of the intrusive lists of include/utlist.h, and what it means for a
    head pointer to denote a given sequence of nodes: a null-terminated chain (LL_ macros),
    the same chain with back links and the tail reachable from the head's `prev` (DL_ macros),
    or a ring (CDL_ macros). */
module ListNodes {

  class Node<T> {
    const elem: T
    var next: Node?<T>
    var prev: Node?<T>

    constructor (elem: T)
      ensures this.elem == elem && next == null && prev == null
    {
      this.elem := elem;
      next, prev := null, null;
    }
  }

  predicate Distinct<T>(s: seq<Node<T>>) {
    forall i, j :: 0 <= i < j < |s| ==> s[i] != s[j]
  }

  function First<T>(s: seq<Node<T>>): Node?<T> {
    if s == [] then null else s[0]
  }

  function Last<T>(s: seq<Node<T>>): Node?<T> {
    if s == [] then null else s[|s| - 1]
  }

  /** Each node of `s` points to the one after it; the last link is not constrained. */
  ghost predicate Linked<T>(s: seq<Node<T>>)
    reads s
  {
    forall i {:trigger s[i].next} :: 0 <= i < |s| - 1 ==> s[i].next == s[i + 1]
  }

  /** `s` is linked and its last node points to `end`. */
  ghost predicate Chain<T>(s: seq<Node<T>>, end: Node?<T>)
    reads s
  {
    Linked(s) && (s != [] ==> s[|s| - 1].next == end)
  }

  /** Each node but the first points back to the one before it. */
  ghost predicate BackLinked<T>(s: seq<Node<T>>)
    reads s
  {
    forall i {:trigger s[i].prev} :: 1 <= i < |s| ==> s[i].prev == s[i - 1]
  }

  /** `head` is a singly-linked list of exactly the nodes `s`. */
  ghost predicate IsLL<T>(head: Node?<T>, s: seq<Node<T>>)
    reads s
  {
    Distinct(s) && head == First(s) && Chain(s, null)
  }

  /** `head` is a doubly-linked list: the tail is kept in the head's `prev`. */
  ghost predicate IsDL<T>(head: Node?<T>, s: seq<Node<T>>)
    reads s
  {
    IsLL(head, s) && BackLinked(s) && (s != [] ==> s[0].prev == s[|s| - 1])
  }

  /** `head` is a ring of exactly the nodes `s`. */
  ghost predicate IsCDL<T>(head: Node?<T>, s: seq<Node<T>>)
    reads s
  {
    Distinct(s) && head == First(s) && Chain(s, head) && BackLinked(s) && (s != [] ==> s[0].prev == s[|s| - 1])
  }

  /** The sequence without its element at `k`. */
  function Without<X>(s: seq<X>, k: nat): seq<X>
    requires k < |s|
  {
    s[..k] + s[k + 1..]
  }
}
