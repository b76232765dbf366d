/**
 `do_sysinfo` and its 32-bit form: memory sizes are reported in units, which the first turns into bytes
 where 64 bits allow it, and the second turns into pages where 32 bits demand it.
 */
module Sysinfo {
  import opened Wrapping

  const PAGE_SIZE := 4096

  datatype Info = Info(totalram: nat, freeram: nat, sharedram: nat, bufferram: nat, totalswap: nat, freeswap: nat,
                       totalhigh: nat, freehigh: nat, unit: nat)

  predicate Sizes(s: Info, bound: int) {
    && s.totalram < bound && s.freeram < bound && s.sharedram < bound && s.bufferram < bound
    && s.totalswap < bound && s.freeswap < bound && s.totalhigh < bound && s.freehigh < bound
  }

  /** Every size is a 64-bit number, the unit a 32-bit one. */
  predicate Valid(s: Info) { Sizes(s, TWO64) && s.unit < TWO32 }

  /** Parts of memory are no larger than memory. */
  predicate Consistent(s: Info) {
    && s.freeram <= s.totalram && s.sharedram <= s.totalram && s.bufferram <= s.totalram
    && s.totalhigh <= s.totalram && s.freehigh <= s.totalram && s.freeswap <= s.totalswap
  }

  function Map(s: Info, f: nat -> nat, unit: nat): Info {
    Info(f(s.totalram), f(s.freeram), f(s.sharedram), f(s.bufferram), f(s.totalswap), f(s.freeswap), f(s.totalhigh), f(s.freehigh), unit)
  }

  function Pow2(n: nat): (r: nat)
    ensures r >= 1
  {
    if n == 0 then 1 else 2 * Pow2(n - 1)
  }

  /** The number of times a unit can be halved. */
  function Log2(n: nat): nat {
    if n <= 1 then 0 else 1 + Log2(n / 2)
  }

  predicate IsPow2(n: nat) { n == Pow2(Log2(n)) }

  lemma {:induction false} Log2Bounds(n: nat)
    requires n >= 1
    ensures Pow2(Log2(n)) <= n < 2 * Pow2(Log2(n))
  {
    if n > 1 {
      Log2Bounds(n / 2);
    }
  }

  // ----- Products -----

  lemma MulLe(a: nat, b: nat, c: nat)
    requires a <= b
    ensures 0 <= a * c <= b * c
  {
    assert b * c == a * c + (b - a) * c;
  }

  lemma MulMono(a: nat, b: nat, c: nat)
    requires b <= c
    ensures a * b <= a * c
  {
    assert a * c == a * b + a * (c - b);
  }

  lemma MulAssoc(a: nat, b: nat, c: nat)
    ensures (a * b) * c == a * (b * c)
  {}

  lemma MulSame(a: nat, b: nat, c: nat)
    requires a > 0
    ensures a * b == a * c <==> b == c
  {
    if b < c {
      assert a * c == a * b + a * (c - b);
    } else if c < b {
      assert a * b == a * c + a * (b - c);
    }
  }

  /** Rounding down to multiples of `p` and then of 2 is rounding down to multiples of `2 * p`. */
  lemma DoubleFloor(y: nat, p: nat, x: nat)
    requires y * p <= x / 2 < y * p + p
    ensures y * (2 * p) <= x < y * (2 * p) + 2 * p
  {
    assert y * (2 * p) == 2 * (y * p);
  }

  /** `x` shifted left, on unbounded integers. */
  function Shl(x: nat, n: nat): nat { x * Pow2(n) }

  /** `x` shifted right. */
  function Shr(x: nat, n: nat): nat { if n == 0 then x else Shr(x / 2, n - 1) }

  lemma {:induction false} ShrFloors(x: nat, n: nat)
    ensures Shr(x, n) * Pow2(n) <= x < Shr(x, n) * Pow2(n) + Pow2(n)
  {
    if n > 0 {
      ShrFloors(x / 2, n - 1);
      DoubleFloor(Shr(x / 2, n - 1), Pow2(n - 1), x);
    } else {
      assert Pow2(0) == 1;
    }
  }

  // ----- do_sysinfo -----

  /** The sum of memory and swap, in bytes when the unit is a power of two, fits in 64 bits. */
  predicate Fits(s: Info)
    requires Valid(s)
  {
    Shl(s.totalram + s.totalswap, Log2(s.unit)) < TWO64
  }

  /** `info`, scaled to unit 1 by shifting every size. */
  function Scaled(s: Info): Info
    requires Valid(s)
  {
    Map(s, x => U64(Shl(x, Log2(s.unit))), 1)
  }

  /** The rescaling step at the end of `do_sysinfo`. */
  method DoSysinfo(s: Info) returns (r: Info)
    requires Valid(s)
    ensures r == if Fits(s) then Scaled(s) else s
  {
    var total := U64(s.totalram + s.totalswap);
    if total < s.totalram || total < s.totalswap {
      SumTooLarge(s);
      return s;
    }
    ghost var sum := total;
    var bits: nat, unit: nat := 0, s.unit;
    assert Shl(sum, 0) == sum;
    hide U64, Log2, Shl;
    while unit > 1
      invariant bits + Log2(unit) == Log2(s.unit)
      invariant total == Shl(sum, bits) < TWO64
    {
      var was := total;
      HalfUnit(unit);
      Halve(sum, bits, Log2(s.unit));
      bits, unit := bits + 1, unit / 2;
      total := U64(2 * total);
      if total < was {
        return s;
      }
    }
    HalfUnit(unit);
    return Map(s, x => U64(Shl(x, bits)), 1);
  }

  lemma HalfUnit(unit: nat)
    ensures Log2(unit) == if unit <= 1 then 0 else 1 + Log2(unit / 2)
  {}

  lemma SumTooLarge(s: Info)
    requires Valid(s) && s.totalram + s.totalswap >= TWO64
    ensures !Fits(s)
  {
    hide Pow2, Log2;
    MulMono(s.totalram + s.totalswap, 1, Pow2(Log2(s.unit)));
  }

  lemma {:induction false} Pow2Monotonic(a: nat, b: nat)
    requires a <= b
    ensures Pow2(a) <= Pow2(b)
    decreases b
  {
    if a < b {
      Pow2Monotonic(a, b - 1);
    }
  }

  /** One doubling: either it fits, or the whole shift does not. */
  lemma Halve(sum: nat, bits: nat, all: nat)
    requires bits < all
    ensures Shl(sum, bits + 1) == 2 * Shl(sum, bits)
    ensures Shl(sum, bits + 1) <= Shl(sum, all)
  {
    assert Pow2(bits + 1) == 2 * Pow2(bits);
    Pow2Monotonic(bits + 1, all);
    hide Pow2;
    MulMono(sum, Pow2(bits + 1), Pow2(all));
    MulAssoc(2, sum, Pow2(bits));
    MulAssoc(sum, 2, Pow2(bits));
  }

  /**
   For a power-of-two unit the result is in bytes exactly when all of memory and swap, in bytes, can be
   counted in 64 bits; then every size is the old one times the unit, without overflow.
   */
  lemma ScaledIsExact(s: Info)
    requires Valid(s) && Consistent(s) && IsPow2(s.unit)
    ensures Fits(s) <==> (s.totalram + s.totalswap) * s.unit < TWO64
    ensures Fits(s) ==> Scaled(s) == Map(s, x => x * s.unit, 1) && Sizes(Scaled(s), TWO64)
  {
    if Fits(s) {
      var u := s.unit;
      forall x | 0 <= x <= s.totalram || 0 <= x <= s.totalswap ensures 0 <= x * u < TWO64 && U64(x * u) == x * u {
        MulLe(x, s.totalram + s.totalswap, u);
      }
    }
  }

  /**
   A property of the rescaling step alone: with any other unit it would report wrong sizes, unless they are
   zero. Which units it is given is decided by code that is not part of this model.
   */
  lemma OtherUnitsAreWrong(s: Info)
    requires Valid(s) && s.unit >= 1 && Fits(s) && 0 < s.totalram
    ensures Scaled(s).totalram == s.totalram * s.unit <==> IsPow2(s.unit)
  {
    Log2Bounds(s.unit);
    hide Pow2, Log2;
    var p := Pow2(Log2(s.unit));
    MulLe(s.totalram, s.totalram + s.totalswap, p);
    assert Scaled(s).totalram == s.totalram * p;
    hide Scaled, U64;
    MulSame(s.totalram, p, s.unit);
  }

  // ----- The 32-bit form -----

  /** How often the unit is doubled to reach a page. */
  function Doublings(unit: nat): nat
    requires unit >= 1
    decreases PAGE_SIZE - unit
  {
    if unit >= PAGE_SIZE then 0 else 1 + Doublings(2 * unit)
  }

  /** The unit ends up as a page or more, but less than two pages unless it was that from the start. */
  lemma {:induction false} DoublingsReachPage(unit: nat)
    requires unit >= 1
    ensures unit * Pow2(Doublings(unit)) >= PAGE_SIZE
    ensures unit < PAGE_SIZE ==> unit * Pow2(Doublings(unit)) < 2 * PAGE_SIZE
    ensures unit >= PAGE_SIZE ==> unit * Pow2(Doublings(unit)) == unit
    decreases PAGE_SIZE - unit
  {
    if unit < PAGE_SIZE {
      DoublingsReachPage(2 * unit);
      MulAssoc(2, unit, Pow2(Doublings(2 * unit)));
      MulAssoc(unit, 2, Pow2(Doublings(2 * unit)));
    } else {
      assert Pow2(0) == 1;
    }
  }

  /** From a unit of zero the doubling would never reach a page. */
  lemma ZeroNeverReachesPage(n: nat)
    ensures Shl(0, n) < PAGE_SIZE
  {}

  predicate NeedsPages(s: Info) { s.totalram >= TWO32 || s.totalswap >= TWO32 }

  /** Before the narrowing to 32 bits. */
  method Shrink(s: Info) returns (r: Info)
    requires Valid(s) && s.unit >= 1
    ensures !NeedsPages(s) ==> r == s
    ensures NeedsPages(s) ==> r == Shrunk(s)
  {
    r := s;
    if NeedsPages(s) {
      var bits: nat, unit: nat := 0, s.unit;
      assert Shl(s.unit, 0) == s.unit;
      hide Shl, Doublings;
      while unit < PAGE_SIZE
        invariant unit >= 1 && unit == Shl(s.unit, bits) && bits + Doublings(unit) == Doublings(s.unit)
        decreases PAGE_SIZE - unit
      {
        Halve(s.unit, bits, bits + 1);
        OneDoubling(unit);
        bits, unit := bits + 1, 2 * unit;
      }
      OneDoubling(unit);
      r := Map(s, x => Shr(x, bits), unit);
    }
  }

  lemma OneDoubling(unit: nat)
    requires unit >= 1
    ensures Doublings(unit) == if unit >= PAGE_SIZE then 0 else 1 + Doublings(2 * unit)
  {}

  /** All sizes in units of a page, rounded down. */
  function Shrunk(s: Info): Info
    requires s.unit >= 1
  {
    var n := Doublings(s.unit);
    Map(s, x => Shr(x, n), Shl(s.unit, n))
  }

  function Narrow(s: Info): Info { Map(s, x => x % TWO32, s.unit) }

  /** `y` times `large` is `x` times `unit`, rounded down. */
  predicate Close(x: nat, unit: nat, y: nat, large: nat) { y * large <= x * unit < y * large + large }

  /** Every size of `r` is that of `s`, rounded down to the unit of `r`. */
  predicate RoundedDown(s: Info, r: Info) {
    && Close(s.totalram, s.unit, r.totalram, r.unit) && Close(s.freeram, s.unit, r.freeram, r.unit)
    && Close(s.sharedram, s.unit, r.sharedram, r.unit) && Close(s.bufferram, s.unit, r.bufferram, r.unit)
    && Close(s.totalswap, s.unit, r.totalswap, r.unit) && Close(s.freeswap, s.unit, r.freeswap, r.unit)
    && Close(s.totalhigh, s.unit, r.totalhigh, r.unit) && Close(s.freehigh, s.unit, r.freehigh, r.unit)
  }

  lemma PageIsPow2()
    ensures Pow2(12) == PAGE_SIZE
  {
    assert Pow2(4) == 16;
    assert Pow2(8) == 16 * Pow2(4);
  }

  lemma {:induction false} Pow2Add(a: nat, b: nat)
    ensures Pow2(a + b) == Pow2(a) * Pow2(b)
  {
    if a > 0 {
      Pow2Add(a - 1, b);
      MulAssoc(2, Pow2(a - 1), Pow2(b));
    }
  }

  lemma {:induction false} DoublingsOf(k: nat)
    requires k <= 12
    ensures Doublings(Pow2(k)) == 12 - k
    decreases 12 - k
  {
    PageIsPow2();
    if k < 12 {
      Pow2Monotonic(k + 1, 12);
      DoublingsOf(k + 1);
      assert Pow2(k + 1) == 2 * Pow2(k);
    }
  }

  lemma BelowPage(k: nat)
    ensures Pow2(k) <= PAGE_SIZE ==> k <= 12
  {
    PageIsPow2();
    assert Pow2(13) == 2 * Pow2(12);
    if k > 12 {
      Pow2Monotonic(13, k);
    }
  }

  lemma DoublingsExact(k: nat)
    requires Pow2(k) <= PAGE_SIZE
    ensures Pow2(k) * Pow2(Doublings(Pow2(k))) == PAGE_SIZE
  {
    BelowPage(k);
    PageIsPow2();
    DoublingsOf(k);
    Pow2Add(k, 12 - k);
  }

  /**
   For every unit, shrinking loses less than one new unit of each size. The new unit is a page or more, and
   less than two pages unless it was not changed; for a power of two up to a page it is exactly a page.
   */
  lemma ShrinkLosesLessThanUnit(s: Info)
    requires Valid(s) && s.unit >= 1
    ensures RoundedDown(s, Shrunk(s))
    ensures Shrunk(s).unit >= PAGE_SIZE && (Shrunk(s).unit < 2 * PAGE_SIZE || Shrunk(s).unit == s.unit)
    ensures IsPow2(s.unit) && s.unit <= PAGE_SIZE ==> Shrunk(s).unit == PAGE_SIZE
  {
    if IsPow2(s.unit) && s.unit <= PAGE_SIZE {
      DoublingsExact(Log2(s.unit));
    }
    DoublingsReachPage(s.unit);
    var n := Doublings(s.unit);
    hide Doublings, Pow2, Log2, Close, Shr;
    CloseAfter(s.totalram, s.unit, n);
    CloseAfter(s.freeram, s.unit, n);
    CloseAfter(s.sharedram, s.unit, n);
    CloseAfter(s.bufferram, s.unit, n);
    CloseAfter(s.totalswap, s.unit, n);
    CloseAfter(s.freeswap, s.unit, n);
    CloseAfter(s.totalhigh, s.unit, n);
    CloseAfter(s.freehigh, s.unit, n);
  }

  lemma CloseAfter(x: nat, unit: nat, n: nat)
    requires unit >= 1
    ensures Close(x, unit, Shr(x, n), Shl(unit, n))
  {
    ShrFloors(x, n);
    hide Pow2, Shr;
    ScaleUp(Shr(x, n), Pow2(n), x, unit);
  }

  lemma ScaleUp(y: nat, p: nat, x: nat, unit: nat)
    requires y * p <= x < y * p + p && unit >= 1
    ensures y * (unit * p) <= x * unit < y * (unit * p) + unit * p
  {
    MulAssoc(y, unit, p);
    MulAssoc(unit, y, p);
    MulMono(unit, y * p, x);
    MulMono(unit, x + 1, y * p + p);
  }

  /** The narrowing to 32 bits keeps the report exactly when every size fits. */
  lemma NarrowIsExact(r: Info)
    requires Sizes(r, TWO64)
    ensures Narrow(r) == r <==> Sizes(r, TWO32)
  {}

  /** A consistent report is shrunk exactly when narrowing would change it; one left as it is reaches the caller unchanged. */
  lemma ShrunkExactlyWhenNeeded(s: Info)
    requires Valid(s) && Consistent(s)
    ensures NeedsPages(s) <==> Narrow(s) != s
  {
    NarrowIsExact(s);
  }
}
