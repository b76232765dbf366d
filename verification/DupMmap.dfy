/**
 `dup_mmap`: the child's address space is built from the parent's list of areas, and a failure part way
 leaves a list that the teardown of the child can still handle.

 The child's tree starts as a copy of the parent's, so its entries first point to the parent's areas
 (`Borrowed`). Areas marked VM_DONTCOPY are cleared, the others replaced one by one by duplicates.
 */
module DupMmap {
  import opened Options

  const EINTR := 4
  const ENOMEM := 12

  /** The counter of an address space that an area's pages are booked to, besides the total. */
  datatype Book = Exec | Stack | Data | Unbooked

  datatype Vma = Vma(start: nat, pages: nat, book: Book, dontCopy: bool, account: bool, wipe: bool, locked: bool,
                     anon: bool, file: Option<nat>)

  datatype Entry = Borrowed(vma: Vma) | Own(vma: Vma) | Marker(vma: Vma)

  datatype Totals = Totals(total: int, exec: int, stack: int, data: int)

  /** How every call that can fail ends, for the area with a given number; zero is success. */
  datatype Outcomes = Outcomes(lockInterrupted: bool, ksm: int, treeCopy: int, arch: int, clear: nat -> int, killed: nat -> bool,
                               enoughMemory: nat -> bool, areaAlloc: nat -> bool, policy: nat -> bool, userfault: nat -> bool,
                               anonFork: nat -> bool, copyPages: nat -> int)

  /** What a child's area looks like: not locked, and without pages of its own when it is wiped on fork. */
  function Duplicate(v: Vma): Vma { v.(locked := false, anon := v.anon && !v.wipe) }

  // ----- Sums over a list of areas -----

  function Copies(vs: seq<Vma>): seq<Entry> {
    if vs == [] then [] else
      var v := vs[|vs| - 1];
      Copies(vs[..|vs| - 1]) + if v.dontCopy then [] else [Own(Duplicate(v))]
  }

  function Rest(vs: seq<Vma>): seq<Entry> { seq(|vs|, i requires 0 <= i < |vs| => Borrowed(vs[i])) }

  function Charge(v: Vma): nat { if v.account && !v.dontCopy then v.pages else 0 }

  function Charges(vs: seq<Vma>): nat {
    if vs == [] then 0 else Charges(vs[..|vs| - 1]) + Charge(vs[|vs| - 1])
  }

  function Less(t: Totals, v: Vma): Totals {
    Totals(t.total - v.pages,
           if v.book == Exec then t.exec - v.pages else t.exec,
           if v.book == Stack then t.stack - v.pages else t.stack,
           if v.book == Data then t.data - v.pages else t.data)
  }

  /** `t` without the areas that are not copied. */
  function Remaining(t: Totals, vs: seq<Vma>): Totals {
    if vs == [] then t else
      var v := vs[|vs| - 1];
      var rest := Remaining(t, vs[..|vs| - 1]);
      if v.dontCopy then Less(rest, v) else rest
  }

  function FilesOf(vs: seq<Vma>): multiset<nat> {
    if vs == [] then multiset{} else
      var v := vs[|vs| - 1];
      FilesOf(vs[..|vs| - 1]) + if v.dontCopy || v.file.None? then multiset{} else multiset{v.file.value}
  }

  // ----- Where the work stops -----

  /** Why area `i` is not duplicated (or not cleared), if so. */
  function Refusal(o: Outcomes, v: Vma, i: nat): int {
    if v.dontCopy then o.clear(i)
    else if o.killed(i) then -EINTR
    else if v.account && !o.enoughMemory(i) then -ENOMEM
    else if !o.areaAlloc(i) || !o.policy(i) || !o.userfault(i) then -ENOMEM
    else if !v.wipe && !o.anonFork(i) then -ENOMEM
    else 0
  }

  /** Why the work stops after area `i` was duplicated, if so. */
  function CopyError(o: Outcomes, v: Vma, i: nat): int {
    if v.dontCopy || v.wipe then 0 else o.copyPages(i)
  }

  datatype Stop = Stop(done: nat, error: int)

  /** The number of areas dealt with from `i` on, and the error that stopped it; all of them and zero if none did. */
  function StopFrom(o: Outcomes, vs: seq<Vma>, i: nat): (r: Stop)
    requires i <= |vs|
    ensures i <= r.done <= |vs|
    decreases |vs| - i
  {
    if i == |vs| then Stop(i, o.arch)
    else if Refusal(o, vs[i], i) != 0 then Stop(i, Refusal(o, vs[i], i))
    else if CopyError(o, vs[i], i) != 0 then Stop(i + 1, CopyError(o, vs[i], i))
    else StopFrom(o, vs, i + 1)
  }

  /** The tree left behind when `n` areas were dealt with: duplicates, then a marker, then what still belongs to the parent. */
  function TreeAfter(vs: seq<Vma>, n: nat, error: int): seq<Entry>
    requires n <= |vs|
  {
    Copies(vs[..n]) + if error == 0 || n == |vs| then [] else [Marker(vs[n])] + Rest(vs[n + 1..])
  }

  // ----- Teardown -----

  /** What is torn down when the child dies: everything up to the first marker. */
  function TornDown(tree: seq<Entry>): seq<Entry> {
    if tree == [] || tree[0].Marker? then [] else [tree[0]] + TornDown(tree[1..])
  }

  function EntryCharges(es: seq<Entry>): nat {
    if es == [] then 0 else EntryCharges(es[..|es| - 1]) + if es[|es| - 1].vma.account then es[|es| - 1].vma.pages else 0
  }

  lemma {:induction false} TornDownStops(a: seq<Entry>, b: seq<Entry>)
    requires forall e :: e in a ==> e.Own?
    requires b == [] || b[0].Marker?
    ensures TornDown(a + b) == a
  {
    if a == [] {
      assert a + b == b;
    } else {
      assert (a + b)[1..] == a[1..] + b;
      TornDownStops(a[1..], b);
      assert a[0] in a && a == [a[0]] + a[1..];
    }
  }

  lemma {:induction false} CopiesOwn(vs: seq<Vma>)
    ensures forall e :: e in Copies(vs) ==> e.Own?
    ensures EntryCharges(Copies(vs)) == Charges(vs)
  {
    if vs != [] {
      var init, v := vs[..|vs| - 1], vs[|vs| - 1];
      CopiesOwn(init);
      var es := Copies(vs);
      if v.dontCopy {
        assert es == Copies(init);
      } else {
        assert es == Copies(init) + [Own(Duplicate(v))];
        assert es[..|es| - 1] == Copies(init);
      }
    }
  }

  /** Tearing a half-built child down touches no area of the parent and gives back exactly what was charged. */
  lemma TeardownBalances(vs: seq<Vma>, n: nat, error: int)
    requires n <= |vs| && (n < |vs| ==> error != 0)
    ensures TornDown(TreeAfter(vs, n, error)) == Copies(vs[..n])
    ensures forall e :: e in TornDown(TreeAfter(vs, n, error)) ==> e.Own?
    ensures EntryCharges(TornDown(TreeAfter(vs, n, error))) == Charges(vs[..n])
  {
    CopiesOwn(vs[..n]);
    TornDownStops(Copies(vs[..n]), if error == 0 || n == |vs| then [] else [Marker(vs[n])] + Rest(vs[n + 1..]));
  }

  // ----- What the child gets -----

  /** `e` is the child's version of area `v`: the same range, file and flags, but never locked, and without the pages of a wiped area. */
  ghost predicate Mirrors(e: Entry, v: Vma) {
    && e.Own? && e.vma.start == v.start && e.vma.pages == v.pages && e.vma.file == v.file && e.vma.book == v.book
    && e.vma.account == v.account && e.vma.wipe == v.wipe && !v.dontCopy && !e.vma.dontCopy
    && !e.vma.locked
    && (e.vma.anon <==> v.anon && !v.wipe)
  }

  /** `e` is the child's version of the area of the list that has `k` areas to be copied before it. */
  ghost predicate ComesFrom(e: Entry, vs: seq<Vma>, k: nat) {
    exists j :: 0 <= j < |vs| && Kept(vs[..j]) == k && Mirrors(e, vs[j])
  }

  /** No area of the child's own is locked, or one that was not to be copied, or keeps pages it should not see. */
  ghost predicate Clean(tree: seq<Entry>) {
    forall e :: e in tree && e.Own? ==> !e.vma.locked && !e.vma.dontCopy && (e.vma.wipe ==> !e.vma.anon)
  }

  /** How many areas of the list are not marked VM_DONTCOPY. */
  function Kept(vs: seq<Vma>): nat {
    if vs == [] then 0 else Kept(vs[1..]) + if vs[0].dontCopy then 0 else 1
  }

  lemma {:induction false} KeptAppends(a: seq<Vma>, b: seq<Vma>)
    ensures Kept(a + b) == Kept(a) + Kept(b)
  {
    if a == [] {
      assert a + b == b;
    } else {
      assert (a + b)[1..] == a[1..] + b;
      KeptAppends(a[1..], b);
    }
  }

  lemma {:induction false} CopiesCount(vs: seq<Vma>)
    ensures |Copies(vs)| == Kept(vs)
  {
    if vs != [] {
      var init := vs[..|vs| - 1];
      CopiesCount(init);
      assert vs == init + [vs[|vs| - 1]];
      KeptAppends(init, [vs[|vs| - 1]]);
    }
  }

  lemma {:induction false} MirroredAt(vs: seq<Vma>, j: nat)
    requires j < |vs| && !vs[j].dontCopy
    ensures Kept(vs[..j]) < |Copies(vs)| && Mirrors(Copies(vs)[Kept(vs[..j])], vs[j])
    decreases |vs|
  {
    var last := |vs| - 1;
    if j == last {
      CopiesCount(vs[..last]);
    } else {
      assert vs[..last][..j] == vs[..j];
      MirroredAt(vs[..last], j);
    }
  }

  lemma {:induction false} MirrorOf(vs: seq<Vma>, k: nat) returns (j: nat)
    requires k < |Copies(vs)|
    ensures j < |vs| && Kept(vs[..j]) == k && Mirrors(Copies(vs)[k], vs[j])
    decreases |vs|
  {
    var last := |vs| - 1;
    if k < |Copies(vs[..last])| {
      j := MirrorOf(vs[..last], k);
      assert vs[..last][..j] == vs[..j];
    } else {
      j := last;
      CopiesCount(vs[..last]);
    }
  }

  /** The child has a version of every area not marked VM_DONTCOPY, in the parent's order, and nothing else. */
  lemma EveryKeptAreaIsMirrored(vs: seq<Vma>)
    ensures |Copies(vs)| == Kept(vs)
    ensures forall j :: 0 <= j < |vs| && !vs[j].dontCopy ==> Kept(vs[..j]) < Kept(vs) && Mirrors(Copies(vs)[Kept(vs[..j])], vs[j])
    ensures forall k :: 0 <= k < |Copies(vs)| ==> ComesFrom(Copies(vs)[k], vs, k)
  {
    hide Copies, Kept, Mirrors;
    CopiesCount(vs);
    forall j | 0 <= j < |vs| && !vs[j].dontCopy ensures Kept(vs[..j]) < Kept(vs) && Mirrors(Copies(vs)[Kept(vs[..j])], vs[j]) {
      MirroredAt(vs, j);
    }
    forall k | 0 <= k < |Copies(vs)| ensures ComesFrom(Copies(vs)[k], vs, k) {
      var _ := MirrorOf(vs, k);
    }
  }

  /** Whatever becomes of the call, the tree it leaves is clean. */
  lemma OwnAreasAreClean(vs: seq<Vma>, n: nat, error: int)
    requires n <= |vs|
    ensures Clean(TreeAfter(vs, n, error))
  {
    EveryKeptAreaIsMirrored(vs[..n]);
    forall e | e in TreeAfter(vs, n, error) && e.Own? ensures !e.vma.locked && !e.vma.dontCopy && (e.vma.wipe ==> !e.vma.anon) {
      assert e in Copies(vs[..n]);
      var k :| 0 <= k < |Copies(vs[..n])| && Copies(vs[..n])[k] == e;
    }
  }

  // ----- When the call succeeds -----

  /** Nothing that is done for area `i` before its pages are copied fails. */
  ghost predicate Duplicates(o: Outcomes, v: Vma, i: nat) {
    !o.killed(i) && (v.account ==> o.enoughMemory(i)) && o.areaAlloc(i) && o.policy(i) && o.userfault(i) && (v.wipe || o.anonFork(i))
  }

  /** Area `i` is dealt with to the end. */
  ghost predicate GoesWell(o: Outcomes, v: Vma, i: nat) {
    if v.dontCopy then o.clear(i) == 0 else Duplicates(o, v, i) && (v.wipe || o.copyPages(i) == 0)
  }

  ghost predicate AllGoWell(o: Outcomes, vs: seq<Vma>) {
    o.arch == 0 && forall j :: 0 <= j < |vs| ==> GoesWell(o, vs[j], j)
  }

  lemma {:induction false} StopPasses(o: Outcomes, vs: seq<Vma>, i: nat, k: nat)
    requires i <= k <= |vs| && forall j :: i <= j < k ==> GoesWell(o, vs[j], j)
    ensures StopFrom(o, vs, i) == StopFrom(o, vs, k)
    decreases k - i
  {
    if i < k {
      StopPasses(o, vs, i + 1, k);
    }
  }

  lemma {:induction false} FirstTrouble(o: Outcomes, vs: seq<Vma>, i: nat) returns (k: nat)
    requires i <= |vs|
    ensures i <= k <= |vs| && (forall j :: i <= j < k ==> GoesWell(o, vs[j], j)) && (k < |vs| ==> !GoesWell(o, vs[k], k))
    decreases |vs| - i
  {
    if i == |vs| || !GoesWell(o, vs[i], i) {
      k := i;
    } else {
      k := FirstTrouble(o, vs, i + 1);
    }
  }

  /** The first area that does not go well decides where the work stops and with which error. */
  lemma StopsAtFirstTrouble(o: Outcomes, vs: seq<Vma>, k: nat)
    requires k < |vs| && !GoesWell(o, vs[k], k) && forall j :: 0 <= j < k ==> GoesWell(o, vs[j], j)
    ensures var r := StopFrom(o, vs, 0);
      && (vs[k].dontCopy ==> r == Stop(k, o.clear(k)))
      && (!vs[k].dontCopy && o.killed(k) ==> r == Stop(k, -EINTR))
      && (!vs[k].dontCopy && !o.killed(k) && !Duplicates(o, vs[k], k) ==> r == Stop(k, -ENOMEM))
      && (!vs[k].dontCopy && Duplicates(o, vs[k], k) ==> r == Stop(k + 1, o.copyPages(k)))
  {
    StopPasses(o, vs, 0, k);
  }

  /** The call succeeds exactly when every area goes well and so does the architecture's part. */
  lemma SucceedsExactly(o: Outcomes, vs: seq<Vma>)
    ensures StopFrom(o, vs, 0).error == 0 <==> AllGoWell(o, vs)
    ensures StopFrom(o, vs, 0).error == 0 ==> StopFrom(o, vs, 0).done == |vs|
  {
    var k := FirstTrouble(o, vs, 0);
    if k < |vs| {
      StopsAtFirstTrouble(o, vs, k);
    } else {
      StopPasses(o, vs, 0, |vs|);
    }
  }

  /** The areas of a list booked to `b`, in pages. */
  function Booked(vs: seq<Vma>, b: Option<Book>, copied: bool): nat {
    if vs == [] then 0 else
      var v := vs[|vs| - 1];
      Booked(vs[..|vs| - 1], b, copied) + if (b.None? || b.value == v.book) && (copied ==> !v.dontCopy) then v.pages else 0
  }

  /** If the parent's counters are the sums over its areas, the child's are the sums over the areas it keeps. */
  lemma {:induction false} TotalsMatch(t: Totals, vs: seq<Vma>, extra: Totals)
    requires t == Totals(extra.total + Booked(vs, None, false), extra.exec + Booked(vs, Some(Exec), false),
                         extra.stack + Booked(vs, Some(Stack), false), extra.data + Booked(vs, Some(Data), false))
    ensures Remaining(t, vs) == Totals(extra.total + Booked(vs, None, true), extra.exec + Booked(vs, Some(Exec), true),
                                       extra.stack + Booked(vs, Some(Stack), true), extra.data + Booked(vs, Some(Data), true))
  {
    if vs != [] {
      var init, v := vs[..|vs| - 1], vs[|vs| - 1];
      TotalsMatch(t, init, Totals(extra.total + v.pages,
                                  extra.exec + if v.book == Exec then v.pages else 0,
                                  extra.stack + if v.book == Stack then v.pages else 0,
                                  extra.data + if v.book == Data then v.pages else 0));
    }
  }

  // ----- Counters -----

  datatype Counters = Counters(mapCount: int, totals: Totals, charged: int, areas: int, policies: int, files: multiset<nat>)

  function WithFile(files: multiset<nat>, v: Vma): multiset<nat> {
    if v.file.None? then files else files + multiset{v.file.value}
  }

  /** The counters after one more area. */
  function Next(c: Counters, v: Vma): Counters {
    if v.dontCopy then c.(totals := Less(c.totals, v))
    else Counters(c.mapCount + 1, c.totals, c.charged + Charge(v), c.areas + 1, c.policies + 1, WithFile(c.files, v))
  }

  function After(c: Counters, vs: seq<Vma>): Counters {
    if vs == [] then c else Next(After(c, vs[..|vs| - 1]), vs[|vs| - 1])
  }

  lemma FilesGrow(files: multiset<nat>, vs: seq<Vma>)
    requires vs != []
    ensures var v, so := vs[|vs| - 1], files + FilesOf(vs[..|vs| - 1]); files + FilesOf(vs) == if v.dontCopy then so else WithFile(so, v)
  {
    var v, before := vs[|vs| - 1], FilesOf(vs[..|vs| - 1]);
    if v.dontCopy || v.file.None? {
      assert FilesOf(vs) == before;
    }
  }

  /** Every counter plus the sum over the copied areas. */
  function Sums(c: Counters, vs: seq<Vma>): Counters {
    Counters(c.mapCount + |Copies(vs)|, Remaining(c.totals, vs), c.charged + Charges(vs), c.areas + |Copies(vs)|,
             c.policies + |Copies(vs)|, c.files + FilesOf(vs))
  }

  lemma SumsGrow(c: Counters, vs: seq<Vma>)
    requires vs != []
    ensures Sums(c, vs) == Next(Sums(c, vs[..|vs| - 1]), vs[|vs| - 1])
  {
    FilesGrow(c.files, vs);
    hide FilesOf, WithFile, Less;
  }

  /** The counters that are kept up area by area are those sums. */
  lemma {:induction false} CountersAreSums(c: Counters, vs: seq<Vma>)
    ensures After(c, vs) == Sums(c, vs)
  {
    if vs != [] {
      SumsGrow(c, vs);
      CountersAreSums(c, vs[..|vs| - 1]);
      hide Sums, Next;
    }
  }

  // ----- The code -----

  class ChildMm {
    var tree: seq<Entry>
    var mapCount: int
    var totals: Totals
    var charged: int               // pages committed on behalf of the child
    var areas: int                 // area structs allocated
    var policies: int              // memory policies duplicated
    var files: multiset<nat>       // file references taken

    function Now(): Counters
      reads this
    {
      Counters(mapCount, totals, charged, areas, policies, files)
    }

    /** `n` areas have been dealt with, the next one is at `pos`, and the rest is the parent's. */
    ghost predicate At(vs: seq<Vma>, n: nat, pos: nat, was: Counters)
      reads this
      requires n <= |vs|
    {
      Now() == After(was, vs[..n]) && pos == |Copies(vs[..n])| && tree == Copies(vs[..n]) + Rest(vs[n..])
    }

    /**
     One area that is to be copied. Whatever had been acquired for it is given back on failure, so that
     nothing but the error tells the difference.
     */
    method DuplicateArea(v: Vma, i: nat, o: Outcomes) returns (error: int, copy: Vma)
      requires !v.dontCopy
      modifies this`charged, this`areas, this`policies, this`files
      ensures error == Refusal(o, v, i)
      ensures error != 0 ==> charged == old(charged) && areas == old(areas) && policies == old(policies) && files == old(files)
      ensures error == 0 ==> copy == Duplicate(v) && charged == old(charged) + Charge(v) && areas == old(areas) + 1 && policies == old(policies) + 1
      ensures error == 0 ==> files == WithFile(old(files), v)
    {
      copy := v;
      var charge := 0;
      if o.killed(i) {
        return -EINTR, copy;
      }
      if v.account {
        if !o.enoughMemory(i) {
          charged := charged - charge;
          return -ENOMEM, copy;
        }
        charged, charge := charged + v.pages, v.pages;
      }
      if !o.areaAlloc(i) {
        charged := charged - charge;
        return -ENOMEM, copy;
      }
      areas := areas + 1;
      if !o.policy(i) {
        areas, charged := areas - 1, charged - charge;
        return -ENOMEM, copy;
      }
      policies := policies + 1;
      if !o.userfault(i) || (!v.wipe && !o.anonFork(i)) {
        policies, areas, charged := policies - 1, areas - 1, charged - charge;
        return -ENOMEM, copy;
      }
      if copy.wipe {
        copy := copy.(anon := false);
      }
      copy := copy.(locked := false);
      if copy.file.Some? {
        files := files + multiset{copy.file.value};
      }
      return 0, copy;
    }

    /** An area that is not copied is cleared from the tree. */
    method ClearArea(vs: seq<Vma>, i: nat, pos: nat, o: Outcomes, ghost was: Counters) returns (retval: int)
      requires i < |vs| && vs[i].dontCopy && At(vs, i, pos, was)
      modifies this
      ensures retval == Refusal(o, vs[i], i)
      ensures At(vs, if retval == 0 then i + 1 else i, pos, was)
    {
      retval := o.clear(i);
      if retval == 0 {
        Extend(vs, i, was);
        Drop(Copies(vs[..i]), Borrowed(vs[i]), Rest(vs[i + 1..]));
        hide Copies, After, Rest;
        tree := tree[..pos] + tree[pos + 1..];
        totals := Less(totals, vs[i]);
      }
    }

    /** Any other area is duplicated and takes its place in the tree. */
    method CopyArea(vs: seq<Vma>, i: nat, pos: nat, o: Outcomes, ghost was: Counters) returns (retval: int, advanced: bool)
      requires i < |vs| && !vs[i].dontCopy && At(vs, i, pos, was)
      modifies this
      ensures advanced <==> Refusal(o, vs[i], i) == 0
      ensures retval == if advanced then CopyError(o, vs[i], i) else Refusal(o, vs[i], i)
      ensures if advanced then At(vs, i + 1, pos + 1, was) else At(vs, i, pos, was)
    {
      Extend(vs, i, was);
      hide Copies, After, Rest, Refusal, WithFile, Less, Duplicate, Charge;
      var copy;
      retval, copy := DuplicateArea(vs[i], i, o);
      advanced := retval == 0;
      if advanced {
        Put(Copies(vs[..i]), Borrowed(vs[i]), Rest(vs[i + 1..]), Own(copy));
        tree, mapCount := tree[pos := Own(copy)], mapCount + 1;
        if !vs[i].wipe {
          retval := o.copyPages(i);
        }
      }
    }

    /** The loop over the parent's areas, up to the end or the first trouble. */
    method CopyAreas(vs: seq<Vma>, o: Outcomes, ghost was: Counters) returns (retval: int, i: nat, pos: nat)
      requires (forall i :: o.clear(i) <= 0) && (forall i :: o.copyPages(i) <= 0)
      requires At(vs, 0, 0, was)
      modifies this
      ensures i <= |vs| && At(vs, i, pos, was) && retval <= 0
      ensures retval == 0 ==> i == |vs| && StopFrom(o, vs, 0) == Stop(|vs|, o.arch)
      ensures retval != 0 ==> StopFrom(o, vs, 0) == Stop(i, retval)
    {
      retval, i, pos := 0, 0, 0;
      hide Copies, After, Rest, Refusal, CopyError;
      while i < |vs| && retval == 0
        invariant i <= |vs| && At(vs, i, pos, was) && retval <= 0
        invariant retval == 0 ==> StopFrom(o, vs, 0) == StopFrom(o, vs, i)
        invariant retval != 0 ==> StopFrom(o, vs, 0) == Stop(i, retval)
        decreases |vs| - i, retval == 0
      {
        NotPositive(o, vs[i], i);
        if vs[i].dontCopy {
          retval := ClearArea(vs, i, pos, o, was);
          i := if retval == 0 then i + 1 else i;
        } else {
          var advanced;
          retval, advanced := CopyArea(vs, i, pos, o, was);
          if advanced {
            i, pos := i + 1, pos + 1;
          }
        }
      }
    }

    /**
     `dup_mmap`. On success the child has exactly the copied areas; on failure those before the place it
     stopped, a marker there, and all counters agree with them.
     */
    method DupMmap(vs: seq<Vma>, t: Totals, o: Outcomes) returns (retval: int, started: bool)
      requires tree == [] && mapCount == 0
      requires (forall i :: o.clear(i) <= 0) && (forall i :: o.copyPages(i) <= 0) && o.ksm <= 0 && o.treeCopy <= 0 && o.arch <= 0
      modifies this
      ensures started <==> !o.lockInterrupted && o.ksm == 0 && o.treeCopy == 0
      ensures !started ==> retval < 0 && tree == [] && Now() == old(Now()).(totals := if o.lockInterrupted then old(totals) else t)
      ensures !started ==> retval == if o.lockInterrupted then -EINTR else if o.ksm != 0 then o.ksm else o.treeCopy
      ensures retval == 0 <==> started && AllGoWell(o, vs)
      ensures Clean(tree)
      ensures started ==> retval == StopFrom(o, vs, 0).error <= 0
      ensures started ==> tree == TreeAfter(vs, StopFrom(o, vs, 0).done, retval)
      ensures started ==> Now() == After(old(Now()).(totals := t), vs[..StopFrom(o, vs, 0).done])
      ensures retval == 0 ==> tree == Copies(vs) && Now() == After(old(Now()).(totals := t), vs)
    {
      assert Clean([]);
      started := false;
      if o.lockInterrupted {
        return -EINTR, started;
      }
      totals := t;
      if o.ksm != 0 {
        return o.ksm, started;
      }
      if o.treeCopy != 0 {
        return o.treeCopy, started;
      }
      started, tree, retval := true, Rest(vs), 0;
      ghost var was := Now();
      assert At(vs, 0, 0, was) by {
        assert vs[..0] == [] && vs[0..] == vs;
      }
      hide Copies, After, Rest, StopFrom, AllGoWell, Clean;
      var i, pos;
      retval, i, pos := CopyAreas(vs, o, was);
      SucceedsExactly(o, vs);
      assert vs[..|vs|] == vs;
      NoRest(vs);
      if retval == 0 {
        retval := o.arch;
      } else if i < |vs| {
        Split(vs, i);
        Put(Copies(vs[..i]), Borrowed(vs[i]), Rest(vs[i + 1..]), Marker(vs[i]));
        tree := tree[pos := Marker(vs[i])];
      }
      OwnAreasAreClean(vs, i, retval);
    }
  }

  lemma NotPositive(o: Outcomes, v: Vma, i: nat)
    requires o.clear(i) <= 0 && o.copyPages(i) <= 0
    ensures Refusal(o, v, i) <= 0 && CopyError(o, v, i) <= 0
    ensures v.dontCopy ==> CopyError(o, v, i) == 0
  {}

  lemma Drop(a: seq<Entry>, e: Entry, b: seq<Entry>)
    ensures var s := a + ([e] + b); s[..|a|] + s[|a| + 1..] == a + b
  {
    var s := a + ([e] + b);
    assert s[..|a|] == a && s[|a| + 1..] == b;
  }

  lemma Put(a: seq<Entry>, e: Entry, b: seq<Entry>, x: Entry)
    ensures (a + ([e] + b))[|a| := x] == a + [x] + b == a + ([x] + b)
  {}

  lemma NoRest(vs: seq<Vma>)
    ensures Rest(vs[|vs|..]) == []
  {}

  lemma Split(vs: seq<Vma>, i: nat)
    requires i < |vs|
    ensures Rest(vs[i..]) == [Borrowed(vs[i])] + Rest(vs[i + 1..])
  {}

  /** How the tree and the counters grow by one area. */
  lemma Extend(vs: seq<Vma>, i: nat, was: Counters)
    requires i < |vs|
    ensures Rest(vs[i..]) == [Borrowed(vs[i])] + Rest(vs[i + 1..])
    ensures Copies(vs[..i + 1]) == if vs[i].dontCopy then Copies(vs[..i]) else Copies(vs[..i]) + [Own(Duplicate(vs[i]))]
    ensures After(was, vs[..i + 1]) == Next(After(was, vs[..i]), vs[i])
  {
    Split(vs, i);
    assert vs[..i + 1][..i] == vs[..i];
  }
}
