/** The lists the runtime keeps on its objects: the command list of each queue, built with the LL_
    macros, and the mapping list of each buffer, built with the DL_ macros. */
module ListTables {
  import opened ListNodes
  import ListOps

  function Elems<T>(s: seq<Node<T>>): seq<T> {
    seq(|s|, i requires 0 <= i < |s| => s[i].elem)
  }

  function AllElems<T>(lists: seq<seq<Node<T>>>): (r: seq<seq<T>>)
    ensures |r| == |lists| && forall i :: 0 <= i < |lists| ==> r[i] == Elems(lists[i])
  {
    seq(|lists|, i requires 0 <= i < |lists| => Elems(lists[i]))
  }

  lemma ElemsUpdate<T>(lists: seq<seq<Node<T>>>, i: nat, s: seq<Node<T>>)
    requires i < |lists|
    ensures AllElems(lists[i := s]) == AllElems(lists)[i := Elems(s)]
  {
  }

  lemma ElemsSnoc<T>(s: seq<Node<T>>, n: Node<T>)
    ensures Elems(s + [n]) == Elems(s) + [n.elem]
  {
  }

  lemma ElemsWithout<T>(s: seq<Node<T>>, k: nat)
    requires k < |s|
    ensures Elems(Without(s, k)) == Without(Elems(s), k)
    ensures forall a :: 0 <= a < |Without(s, k)| ==> Without(s, k)[a] in s
  {
  }

  lemma HeadIs<T>(head: Node?<T>, s: seq<Node<T>>)
    requires IsDL(head, s) && s != []
    ensures head == s[0]
  {
  }

  /** No node is on two lists. */
  ghost predicate Apart<T>(lists: seq<seq<Node<T>>>) {
    forall i, j, a, b {:trigger lists[i][a], lists[j][b]} ::
      0 <= i < |lists| && 0 <= j < |lists| && 0 <= a < |lists[i]| && 0 <= b < |lists[j]| && lists[i][a] == lists[j][b] ==> i == j
  }

  ghost predicate Among<T>(s: seq<Node<T>>, nodes: set<Node<T>>) {
    forall a {:trigger s[a]} :: 0 <= a < |s| ==> s[a] in nodes
  }

  /** Lists that share no node with list `i`. */
  lemma OthersApart<T>(lists: seq<seq<Node<T>>>, i: nat, j: nat)
    requires Apart(lists) && i < |lists| && j < |lists| && i != j
    ensures forall a :: 0 <= a < |lists[j]| ==> lists[j][a] !in lists[i]
  {
    forall a | 0 <= a < |lists[j]| ensures lists[j][a] !in lists[i] {
      assert forall b :: 0 <= b < |lists[i]| ==> lists[i][b] != lists[j][a];
    }
  }

  /** A list may lose nodes and gain new ones. */
  lemma StillApart<T>(lists: seq<seq<Node<T>>>, i: nat, s: seq<Node<T>>, nodes: set<Node<T>>)
    requires Apart(lists) && i < |lists| && forall j :: 0 <= j < |lists| ==> Among(lists[j], nodes)
    requires forall a :: 0 <= a < |s| ==> s[a] in lists[i] || s[a] !in nodes
    ensures Apart(lists[i := s])
  {
    var t := lists[i := s];
    forall j, a, b | 0 <= j < |t| && j != i && 0 <= a < |s| && 0 <= b < |t[j]| ensures s[a] != t[j][b] {
      OthersApart(lists, i, j);
    }
  }

  /** The command lists of all queues. */
  class CommandLists<T> {
    var roots: seq<Node?<T>>
    ghost var lists: seq<seq<Node<T>>>
    ghost var nodes: set<Node<T>>

    ghost predicate Valid()
      reads this, nodes
    {
      |roots| == |lists| && Apart(lists)
      && forall q {:trigger lists[q]} :: 0 <= q < |lists| ==> Among(lists[q], nodes) && IsLL(roots[q], lists[q])
    }

    ghost function Contents(): seq<seq<T>>
      reads this
    {
      AllElems(lists)
    }

    constructor ()
      ensures Valid() && Contents() == [] && fresh(nodes)
    {
      roots, lists, nodes := [], [], {};
    }

    /** A queue starts without commands. */
    method NewQueue()
      requires Valid()
      modifies this
      ensures Valid() && Contents() == old(Contents()) + [[]] && nodes == old(nodes)
    {
      roots := roots + [null];
      lists := lists + [[]];
    }

    /** LL_APPEND on the root of a queue. */
    method Append(q: nat, elem: T)
      requires Valid() && q < |roots|
      modifies this, nodes
      ensures Valid() && Contents() == old(Contents())[q := old(Contents())[q] + [elem]]
      ensures fresh(nodes - old(nodes)) && old(nodes) <= nodes
    {
      hide IsLL, Elems, AllElems, Apart;
      ghost var before, s := lists, lists[q];
      assert Among(s, nodes);
      var node := new Node(elem);
      StillApart(before, q, s + [node], nodes);
      var root := ListOps.LlAppend(roots[q], node, s);
      forall r | 0 <= r < |before| && r != q ensures IsLL(roots[r], before[r]) { OthersApart(before, q, r); }
      roots := roots[q := root];
      nodes := nodes + {node};
      lists := lists[q := s + [node]];
      ElemsSnoc(s, node);
      ElemsUpdate(before, q, s + [node]);
    }

    /** The list is freed. */
    method Clear(q: nat)
      requires Valid() && q < |roots|
      modifies this
      ensures Valid() && Contents() == old(Contents())[q := []] && nodes == old(nodes)
    {
      ghost var before := lists;
      roots := roots[q := null];
      lists := lists[q := []];
      var none: seq<Node<T>> := [];
      assert Elems(none) == [];
      assert AllElems(lists) == AllElems(before)[q := []];
    }
  }

  /** The mapping lists of all buffers. */
  class MappingLists<T(==)> {
    var heads: seq<Node?<T>>
    ghost var lists: seq<seq<Node<T>>>
    ghost var nodes: set<Node<T>>

    ghost predicate Valid()
      reads this, nodes
    {
      |heads| == |lists| && Apart(lists)
      && forall m {:trigger lists[m]} :: 0 <= m < |lists| ==> Among(lists[m], nodes) && IsDL(heads[m], lists[m])
    }

    ghost function Contents(): seq<seq<T>>
      reads this
    {
      AllElems(lists)
    }

    constructor ()
      ensures Valid() && Contents() == [] && fresh(nodes)
    {
      heads, lists, nodes := [], [], {};
    }

    method NewBuffer()
      requires Valid()
      modifies this
      ensures Valid() && Contents() == old(Contents()) + [[]] && nodes == old(nodes)
    {
      heads := heads + [null];
      lists := lists + [[]];
    }

    /** DL_APPEND on the list of a buffer. */
    method Append(m: nat, elem: T)
      requires Valid() && m < |heads|
      modifies this, nodes
      ensures Valid() && Contents() == old(Contents())[m := old(Contents())[m] + [elem]]
      ensures fresh(nodes - old(nodes)) && old(nodes) <= nodes
    {
      hide IsDL, Without, Elems, AllElems, Apart;
      ghost var before, s := lists, lists[m];
      assert Among(s, nodes);
      var node := new Node(elem);
      StillApart(before, m, s + [node], nodes);
      var head := ListOps.DlAppend(heads[m], node, s);
      forall r | 0 <= r < |before| && r != m ensures IsDL(heads[r], before[r]) { OthersApart(before, m, r); }
      heads := heads[m := head];
      nodes := nodes + {node};
      lists := lists[m := s + [node]];
      ElemsSnoc(s, node);
      ElemsUpdate(before, m, s + [node]);
    }

    /** DL_DELETE of the k-th node, which the caller has in its hand. */
    method Delete(m: nat, del: Node<T>, ghost k: nat)
      requires Valid() && m < |heads| && k < |lists[m]| && lists[m][k] == del
      modifies this, nodes
      ensures Valid() && Contents() == old(Contents())[m := Without(old(Contents())[m], k)] && nodes == old(nodes)
    {
      hide IsDL, Without, Elems, AllElems, Apart;
      ghost var before, s := lists, lists[m];
      assert Among(s, nodes);
      ElemsWithout(s, k);
      StillApart(before, m, Without(s, k), nodes);
      HeadIs(heads[m], s);
      var head := ListOps.DlDelete(heads[m], del, s, k);
      forall r | 0 <= r < |before| && r != m ensures IsDL(heads[r], before[r]) { OthersApart(before, m, r); }
      heads := heads[m := head];
      lists := lists[m := Without(s, k)];
      ElemsUpdate(before, m, Without(s, k));
    }

    method Clear(m: nat)
      requires Valid() && m < |heads|
      modifies this
      ensures Valid() && Contents() == old(Contents())[m := []] && nodes == old(nodes)
    {
      ghost var before := lists;
      heads := heads[m := null];
      lists := lists[m := []];
      var none: seq<Node<T>> := [];
      assert Elems(none) == [];
      assert AllElems(lists) == AllElems(before)[m := []];
    }
  }
}
