/**
 The code of the system calls 557 to 559 on the linked list itself: a ring of nodes with links in both
 directions, changed in place, against the list of entries that `MemoryLimits` is about.
 */
module LimitList {
  import opened MemoryLimits
  import opened Options
  import opened Wrapping

  /** An entry with its links; the head of the list is a node too, whose other fields are not used. */
  class Node {
    var pid: int
    var limit: nat
    var next: Node
    var prev: Node

    /** A node linked to itself, as `INIT_LIST_HEAD` leaves it. */
    constructor (pid: int, limit: nat)
      ensures this.pid == pid && this.limit == limit && next == prev == this
    {
      this.pid, this.limit := pid, limit;
      next, prev := this, this;
    }
  }

  function Succ(i: nat, n: nat): nat { if i + 1 < n then i + 1 else 0 }

  function Pred(i: nat, n: nat): nat
    requires n > 0
  {
    if i > 0 then i - 1 else n - 1
  }

  /** The links of the nodes, followed in either direction, lead once around. */
  ghost predicate Ring(ring: seq<Node>)
    reads ring
  {
    && |ring| > 0
    && (forall i, j :: 0 <= i < j < |ring| ==> ring[i] != ring[j])
    && (forall i :: 0 <= i < |ring| ==> ring[i].next == ring[Succ(i, |ring|)])
    && (forall i :: 0 <= i < |ring| ==> ring[i].prev == ring[Pred(i, |ring|)])
  }

  /** A node put in after the first, with the four links around it set, makes a ring again. */
  lemma RingGrows(was: seq<Node>, n: Node)
    requires |was| > 0 && n !in was && forall i, j :: 0 <= i < j < |was| ==> was[i] != was[j]
    requires was[0].next == n && n.next == was[Succ(0, |was|)]
    requires n.prev == was[0] && was[Succ(0, |was|)].prev == n
    requires forall i :: 1 <= i < |was| ==> was[i].next == was[Succ(i, |was|)]
    requires forall i :: 0 <= i < |was| && i != Succ(0, |was|) ==> was[i].prev == was[Pred(i, |was|)]
    ensures Ring([was[0], n] + was[1..])
  {
    var ring := [was[0], n] + was[1..];
    assert forall i :: 2 <= i < |ring| ==> ring[i] == was[i - 1];
    forall i | 0 <= i < |ring| ensures ring[i].next == ring[Succ(i, |ring|)] {
      assert i >= 2 ==> was[i - 1].next == was[Succ(i - 1, |was|)];
    }
    forall i | 0 <= i < |ring| ensures ring[i].prev == ring[Pred(i, |ring|)] {
      assert i > 2 ==> was[i - 1].prev == was[Pred(i - 1, |was|)];
    }
  }

  /** The entries of the nodes after the head. */
  ghost predicate Carries(ring: seq<Node>, contents: seq<Entry>)
    reads ring
  {
    |ring| == |contents| + 1 && forall i :: 0 <= i < |contents| ==> contents[i] == Entry(ring[i + 1].pid, ring[i + 1].limit)
  }

  class Limits {
    const head: Node
    ghost var ring: seq<Node>
    ghost var contents: seq<Entry>

    ghost predicate Valid()
      reads this, ring
    {
      Ring(ring) && ring[0] == head && Carries(ring, contents)
    }

    /** `LIST_HEAD`: the list starts empty. */
    constructor ()
      ensures Valid() && contents == [] && fresh(ring)
    {
      head := new Node(0, 0);
      ring, contents := [head], [];
    }

    /** Walks the list for `pid`; it comes back to the head if it is not there. */
    method Search(pid: int) returns (pos: Node, ghost i: nat)
      requires Valid()
      ensures i == Find(contents, pid) && (pos == head <==> i == |contents|)
      ensures i < |contents| ==> pos == ring[i + 1]
    {
      pos, i := head.next, 0;
      while pos != head && pos.pid != pid
        invariant i <= |contents| && pos == ring[Succ(i, |ring|)]
        invariant forall j :: 0 <= j < i ==> contents[j].pid != pid
        decreases |contents| - i
      {
        pos, i := pos.next, i + 1;
      }
      FindIs(contents, pid, i);
    }

    /** `list_add`: links `n` in right after the head. */
    method ListAdd(n: Node)
      requires Valid() && n !in ring
      modifies this, n`next, n`prev, head`next, head.next`prev
      ensures Valid()
      ensures ring == [head, n] + old(ring)[1..] && contents == [Entry(n.pid, n.limit)] + old(contents)
    {
      ghost var was := ring;
      var first := head.next;
      first.prev := n;
      n.next := first;
      n.prev := head;
      head.next := n;
      RingGrows(was, n);
      hide Ring;
      ring, contents := [head, n] + was[1..], [Entry(n.pid, n.limit)] + contents;
    }

    /** `so2_add_memory_limit`. */
    method AddLimit(pid: int, limit: nat, t: Target, ghost g: Registry) returns (r: int)
      requires Valid() && Holds(contents, g) && limit < TWO64
      modifies this, ring
      ensures Valid() && forall n :: n in ring ==> n in old(ring) || fresh(n)
      ensures (r, contents) == Perform(old(contents), Add(pid, limit, t))
      ensures r == Intended(g, Add(pid, limit, t)).0 && Holds(contents, Intended(g, Add(pid, limit, t)).1)
    {
      CallRefines(contents, g, Add(pid, limit, t));
      hide Holds, Intended, Ring, Carries;
      r := Precheck(pid, limit, t);
      if r != 0 {
        return;
      }
      hide Precheck;
      var pos, i := Search(pid);
      if pos != head {
        return -101;
      }
      if !t.memory {
        return -ENOMEM;
      }
      var entry := new Node(pid, limit);
      ListAdd(entry);
      r := 0;
    }

    /** `so2_update_memory_limit`: the limit is changed where it stands, and no link. */
    method UpdateLimit(pid: int, limit: nat, t: Target, ghost g: Registry) returns (r: int)
      requires Valid() && Holds(contents, g) && limit < TWO64
      modifies this`contents, ring
      ensures Valid() && forall n :: n in ring ==> n.next == old(n.next) && n.prev == old(n.prev)
      ensures (r, contents) == Perform(old(contents), Update(pid, limit, t))
      ensures r == Intended(g, Update(pid, limit, t)).0 && Holds(contents, Intended(g, Update(pid, limit, t)).1)
    {
      CallRefines(contents, g, Update(pid, limit, t));
      hide Holds, Intended;
      r := Precheck(pid, limit, t);
      if r != 0 {
        return;
      }
      hide Precheck;
      var pos, i := Search(pid);
      if pos == head {
        return -102;
      }
      SetLimit(pos, limit, i);
      r := 0;
    }

    method SetLimit(pos: Node, limit: nat, ghost i: nat)
      requires Valid() && i < |contents| && pos == ring[i + 1]
      modifies this`contents, pos`limit
      ensures Valid() && contents == old(contents)[i := old(contents)[i].(limit := limit)]
    {
      pos.limit := limit;
      contents := contents[i := contents[i].(limit := limit)];
    }

    /** The walk that counts the entries. */
    method Count() returns (count: nat)
      requires Valid()
      ensures count == |contents|
    {
      count := 0;
      var pos := head.next;
      while pos != head
        invariant count <= |contents| && pos == ring[Succ(count, |ring|)]
        decreases |contents| - count
      {
        pos, count := pos.next, count + 1;
      }
    }

    /** The walk that fills the buffer; it is bounded by the caller's maximum, not by the size of the buffer. */
    method Fill(kernel: array<Entry>, max: nat)
      requires Valid() && kernel.Length == Min(|contents|, max)
      modifies kernel
      ensures Valid() && kernel[..] == contents[..kernel.Length]
    {
      var count := 0;
      var pos := head.next;
      while pos != head
        invariant Valid() && count <= kernel.Length && pos == ring[Succ(count, |ring|)]
        invariant forall i :: 0 <= i < count ==> kernel[i] == contents[i]
        decreases |contents| - count
      {
        if count >= max {
          break;
        }
        kernel[count] := Entry(pos.pid, pos.limit);
        pos, count := pos.next, count + 1;
      }
    }

    /**
     The locked part of `so2_get_memory_limits`: a buffer sized by a first walk and filled by a second one comes
     out full to the last slot and no further.
     */
    method Collect(max: nat, memory: bool, ghost g: Registry) returns (buffer: Option<array<Entry>>)
      requires max > 0 && Valid() && Holds(contents, g)
      ensures buffer.Some? <==> memory
      ensures buffer.Some? ==> fresh(buffer.value) && buffer.value[..] == Newest(g, Min(|g.order|, max))
    {
      var count := Count();
      if count > max {
        count := max;
      }
      if !memory {
        return None;
      }
      var kernel := new Entry[count](_ => Entry(0, 0));
      Fill(kernel, max);
      FirstAreNewest(contents, g, count);
      buffer := Some(kernel);
    }

    /**
     `so2_get_memory_limits`. `bufferOk` and `countOk` say whether the two copies to the caller's memory work;
     `written` is what reached the caller's buffer and `counted` what reached the counter, a 32-bit number.
     */
    method GetLimits(max: nat, pointers: bool, memory: bool, bufferOk: bool, countOk: bool, ghost g: Registry)
      returns (r: int, written: seq<Entry>, counted: Option<int>)
      requires Valid() && Holds(contents, g)
      ensures r == if max == 0 || !pointers then -EINVAL else if !memory then -ENOMEM else if !bufferOk || !countOk then -EFAULT else 0
      ensures r == 0 ==> written == Newest(g, Min(|g.order|, max)) && counted == Some(S32(|written|))
      ensures r != 0 ==> counted == None
      ensures written != [] ==> written == Newest(g, Min(|g.order|, max))
    {
      if max == 0 || !pointers {
        return -EINVAL, [], None;
      }
      var buffer := Collect(max, memory, g);
      if buffer.None? {
        return -ENOMEM, [], None;
      }
      if !bufferOk {
        return -EFAULT, [], None;
      }
      written := buffer.value[..];
      if !countOk {
        return -EFAULT, written, None;
      }
      return 0, written, Some(S32(|written|));
    }
  }

  lemma FirstAreNewest(list: seq<Entry>, g: Registry, n: nat)
    requires Holds(list, g) && n <= |list|
    ensures list[..n] == Newest(g, n)
  {}
}
