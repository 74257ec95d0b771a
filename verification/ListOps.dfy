/** The insertion, concatenation and deletion macros of include/utlist.h on heap nodes.
    A macro updates its `head` argument in place; the model returns the new head. Each
    method refines one operation on the sequence of nodes that the list denotes. */
module ListOps {
  import opened ListNodes

  // ----- singly-linked lists -----

  method LlPrepend<T>(head: Node?<T>, add: Node<T>, ghost s: seq<Node<T>>) returns (r: Node<T>)
    requires IsLL(head, s) && add !in s
    modifies add`next
    ensures IsLL(r, [add] + s)
  {
    add.next := head;
    r := add;
  }

  /** The walk shared by LL_APPEND and LL_CONCAT: find the last node. */
  method LlLast<T>(head: Node<T>, ghost s: seq<Node<T>>) returns (tmp: Node<T>)
    requires IsLL(head, s)
    ensures s != [] && tmp == s[|s| - 1]
  {
    tmp := head;
    ghost var i := 0;
    while tmp.next != null
      invariant 0 <= i < |s| && tmp == s[i]
      decreases |s| - i
    {
      tmp := tmp.next;
      i := i + 1;
    }
  }

  method LlAppend<T>(head: Node?<T>, add: Node<T>, ghost s: seq<Node<T>>) returns (r: Node<T>)
    requires IsLL(head, s) && add !in s
    modifies s`next, add`next
    ensures IsLL(r, s + [add])
  {
    add.next := null;
    if head != null {
      var tmp := LlLast(head, s);
      tmp.next := add;
      r := head;
    } else {
      r := add;
    }
  }

  method LlConcat<T>(head1: Node?<T>, head2: Node?<T>, ghost s1: seq<Node<T>>, ghost s2: seq<Node<T>>)
    returns (r: Node?<T>)
    requires IsLL(head1, s1) && IsLL(head2, s2) && Distinct(s1 + s2)
    modifies s1`next
    ensures IsLL(r, s1 + s2)
  {
    if head1 != null {
      var tmp := LlLast(head1, s1);
      DistinctHalves(s1, s2);
      tmp.next := head2;
      assert s2 == [] ==> s1 + s2 == s1;
      assert s2 != [] ==> (s1 + s2)[|s1 + s2| - 1] == s2[|s2| - 1];
      r := head1;
    } else {
      r := head2;
      assert s1 + s2 == s2;
    }
  }

  /** LL_DELETE: unlinks `del` when it is in the list, and changes nothing when it is not. */
  method LlDelete<T>(head: Node<T>, del: Node<T>, ghost s: seq<Node<T>>) returns (r: Node?<T>)
    requires IsLL(head, s)
    modifies s`next
    ensures del !in s ==> r == head && IsLL(r, s) && forall n :: n in s ==> n.next == old(n.next)
    ensures forall k :: 0 <= k < |s| && s[k] == del ==> IsLL(r, Without(s, k))
  {
    if head == del {
      r := head.next;
    } else {
      var tmp := head;
      ghost var i := 0;
      while tmp.next != null && tmp.next != del
        invariant 0 <= i < |s| && tmp == s[i]
        invariant forall j :: 0 <= j <= i ==> s[j] != del
        decreases |s| - i
      {
        tmp := tmp.next;
        i := i + 1;
      }
      if tmp.next != null {
        assert s[i + 1] == del;
        tmp.next := del.next;
      }
      r := head;
    }
  }

  // ----- doubly-linked lists -----

  method DlPrepend<T>(head: Node?<T>, add: Node<T>, ghost s: seq<Node<T>>) returns (r: Node<T>)
    requires IsDL(head, s) && add !in s
    modifies add, s`prev
    ensures IsDL(r, [add] + s)
  {
    add.next := head;
    if head != null {
      add.prev := head.prev;
      head.prev := add;
    } else {
      add.prev := add;
    }
    r := add;
  }

  method DlAppend<T>(head: Node?<T>, add: Node<T>, ghost s: seq<Node<T>>) returns (r: Node<T>)
    requires IsDL(head, s) && add !in s
    modifies add, s
    ensures IsDL(r, s + [add])
  {
    if head != null {
      add.prev := head.prev;
      head.prev.next := add;
      head.prev := add;
      add.next := null;
      r := head;
    } else {
      r := add;
      r.prev := r;
      r.next := null;
    }
  }

  method DlConcat<T>(head1: Node?<T>, head2: Node?<T>, ghost s1: seq<Node<T>>, ghost s2: seq<Node<T>>)
    returns (r: Node?<T>)
    requires IsDL(head1, s1) && IsDL(head2, s2) && Distinct(s1 + s2)
    modifies s1, s2`prev
    ensures IsDL(r, s1 + s2)
  {
    r := head1;
    if head2 != null {
      if head1 != null {
        DistinctHalves(s1, s2);
        var tmp := head2.prev;
        head2.prev := head1.prev;
        head1.prev.next := head2;
        head1.prev := tmp;
        assert (s1 + s2)[|s1 + s2| - 1] == s2[|s2| - 1];
      } else {
        r := head2;
        assert s1 + s2 == s2;
      }
    } else {
      assert s1 + s2 == s1;
    }
  }

  /** DL_DELETE; the macro's assertion that `del` is on a list is the precondition. */
  method DlDelete<T>(head: Node<T>, del: Node<T>, ghost s: seq<Node<T>>, ghost k: nat) returns (r: Node?<T>)
    requires IsDL(head, s) && k < |s| && s[k] == del
    modifies s
    ensures IsDL(r, Without(s, k))
  {
    if del.prev == del {
      r := null;
    } else if del == head {
      del.next.prev := del.prev;
      r := del.next;
    } else {
      del.prev.next := del.next;
      if del.next != null {
        del.next.prev := del.prev;
      } else {
        head.prev := del.prev;
      }
      r := head;
    }
  }

  // ----- rings -----

  method CdlPrepend<T>(head: Node?<T>, add: Node<T>, ghost s: seq<Node<T>>) returns (r: Node<T>)
    requires IsCDL(head, s) && add !in s
    modifies add, s
    ensures IsCDL(r, [add] + s)
  {
    if head != null {
      add.prev := head.prev;
      add.next := head;
      head.prev := add;
      add.prev.next := add;
    } else {
      add.prev := add;
      add.next := add;
    }
    r := add;
  }

  method CdlDelete<T>(head: Node<T>, del: Node<T>, ghost s: seq<Node<T>>, ghost k: nat) returns (r: Node?<T>)
    requires IsCDL(head, s) && k < |s| && s[k] == del
    modifies s
    ensures IsCDL(r, Without(s, k))
  {
    if head == del && head.next == head {
      r := null;
    } else {
      del.next.prev := del.prev;
      del.prev.next := del.next;
      r := if del == head then del.next else head;
    }
  }

  lemma DistinctHalves<T>(s1: seq<Node<T>>, s2: seq<Node<T>>)
    requires Distinct(s1 + s2)
    ensures forall i, j :: 0 <= i < |s1| && 0 <= j < |s2| ==> s1[i] != s2[j]
    ensures Distinct(s1) && Distinct(s2)
  {
    forall i, j | 0 <= i < |s1| && 0 <= j < |s2| ensures s1[i] != s2[j] {
      assert (s1 + s2)[i] == s1[i] && (s1 + s2)[|s1| + j] == s2[j];
    }
    forall i, j | 0 <= i < j < |s1| ensures s1[i] != s1[j] {
      assert (s1 + s2)[i] == s1[i] && (s1 + s2)[j] == s1[j];
    }
    forall i, j | 0 <= i < j < |s2| ensures s2[i] != s2[j] {
      assert (s1 + s2)[|s1| + i] == s2[i] && (s1 + s2)[|s1| + j] == s2[j];
    }
  }
}
