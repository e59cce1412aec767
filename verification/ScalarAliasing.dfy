/**
 * Which addresses share cells of the memory model, in bits of the address: it looks at twelve of the
 * twenty-five only. With that, read after write from one host address to another.
 */
module ScalarAliasing {
  import opened DdrBus
  import opened SimpleMem
  import opened ProtocolEngine
  import opened ScalarTraffic
  import Controller

  const WORDS := 0x1000

  /** Address bits 16:12, 4:3, 6:5 and 2:0, in this order. */
  function WordOf(a: Address): (x: nat)
    ensures x < WORDS
  {
    a / 0x1000 % 32 * 128 + a / 8 % 4 * 32 + a / 32 % 4 * 8 + a % 8
  }

  lemma LowColumn(q: nat, r: nat)
    requires r < 8
    ensures (q % 128 * 8 + r) % 512 % 32 == q % 4 * 8 + r
  {
    var c := q % 128;
    assert c % 4 == q % 4;
    ColumnDigits(c / 4, c % 4, r);
  }

  lemma ColumnDigits(u: nat, v: nat, r: nat)
    requires u < 32 && v < 4 && r < 8
    ensures ((u * 4 + v) * 8 + r) % 512 % 32 == v * 8 + r
  {
    assert ((u * 4 + v) * 8 + r) % 512 == u % 16 * 32 + (v * 8 + r);
  }

  /** The first cell of a burst at this address. */
  lemma BaseOfAddress(a: Address)
    ensures BaseOf(a) == WordOf(a)
  {
    LowColumn(a / 32, a % 8);
    assert ColOf(a) % 512 % 32 == a / 32 % 4 * 8 + a % 8;
  }

  lemma CellOfAddress(mc: SimpleMem.Config, a: Address)
    requires mc.depth > 0
    ensures BaseOf(a) == WordOf(a) && CellOf(mc, Place(a)) == WordOf(a) % mc.depth
  {
    BaseOfAddress(a);
    assert CellOf(mc, Place(a)) == BaseOf(a) % mc.depth;
  }

  lemma DigitsDiffer(u: nat, v: nat, x: nat, y: nat)
    requires x < 128 && y < 128
    ensures u * 128 + x == v * 128 + y <==> u == v && x == y
  {
  }

  lemma Digits(h: nat, b: nat, c: nat, l: nat)
    requires h < 32 && b < 4 && c < 4 && l < 8
    ensures (h * 128 + b * 32 + c * 8 + l) / 128 == h && (h * 128 + b * 32 + c * 8 + l) % 128 == b * 32 + c * 8 + l
  {
  }

  lemma LowDigitsDiffer(b: nat, c: nat, l: nat, b': nat, c': nat, l': nat)
    requires b < 4 && c < 4 && l < 8 && b' < 4 && c' < 4 && l' < 8
    ensures b * 32 + c * 8 + l == b' * 32 + c' * 8 + l' <==> b == b' && c == c' && l == l'
  {
  }

  /**
   * With room for all the words it can tell apart, the memory keeps two addresses apart exactly if they differ
   * in one of the bits it looks at.
   */
  lemma AddressesShareCell(mc: SimpleMem.Config, a: Address, b: Address)
    requires mc.depth >= WORDS
    ensures CellOf(mc, Place(a)) == CellOf(mc, Place(b))
            <==> a / 0x1000 % 32 == b / 0x1000 % 32 && a / 32 % 4 == b / 32 % 4 && a / 8 % 4 == b / 8 % 4 && a % 8 == b % 8
  {
    CellOfAddress(mc, a);
    CellOfAddress(mc, b);
    ModUnique(WordOf(a), 0, WordOf(a), mc.depth);
    ModUnique(WordOf(b), 0, WordOf(b), mc.depth);
    Digits(a / 0x1000 % 32, a / 8 % 4, a / 32 % 4, a % 8);
    Digits(b / 0x1000 % 32, b / 8 % 4, b / 32 % 4, b % 8);
    DigitsDiffer(a / 0x1000 % 32, b / 0x1000 % 32, WordOf(a) % 128, WordOf(b) % 128);
    LowDigitsDiffer(a / 8 % 4, a / 32 % 4, a % 8, b / 8 % 4, b / 32 % 4, b % 8);
  }

  /** How far x is beyond y, around the depth. */
  function Beyond(d: nat, x: nat, y: nat): (n: nat)
    requires d > 0
  {
    (x - y) % d
  }

  /** The burst stored at b covers the first cell of a: it is at most seven words further on, around the depth. */
  predicate Covers(mc: SimpleMem.Config, b: Address, a: Address)
    requires mc.depth > 0
  {
    Beyond(mc.depth, WordOf(a), WordOf(b)) < BURST
  }

  // Distances around the depth.

  lemma {:induction false} TimesAtLeast(n: nat, d: nat)
    requires n > 0
    ensures n * d >= d
  {
    if n > 1 {
      TimesAtLeast(n - 1, d);
      assert n * d == (n - 1) * d + d;
    }
  }

  lemma TimesApart(p: int, q: int, d: nat)
    ensures (p - q) * d == p * d - q * d
  {
  }

  lemma DivMod(x: int, d: nat)
    requires d > 0
    ensures x == x / d * d + x % d && 0 <= x % d < d
  {
  }

  lemma ModUnique(x: int, q: int, r: int, d: nat)
    requires d > 0 && x == q * d + r && 0 <= r < d
    ensures x % d == r
  {
    DivMod(x, d);
    var p := x / d;
    if p > q {
      TimesApart(p, q, d);
      TimesAtLeast(p - q, d);
    } else if p < q {
      TimesApart(q, p, d);
      TimesAtLeast(q - p, d);
    }
  }

  lemma ModAdd(x: int, q: int, d: nat)
    requires d > 0
    ensures (x + q * d) % d == x % d
  {
    DivMod(x, d);
    TimesApart(x / d, -q, d);
    ModUnique(x + q * d, x / d + q, x % d, d);
  }

  lemma SlotDistance(d: nat, x: nat, y: nat)
    requires d > 0
    ensures (y + (x - y) % d) % d == x % d
  {
    DivMod(x - y, d);
    ModAdd(y + (x - y) % d, (x - y) / d, d);
  }

  lemma DistanceOfSlot(d: nat, x: nat, y: nat, k: nat)
    requires d > 0 && (y + k) % d == x % d
    ensures (x - y) % d <= k
  {
    DivMod(y + k, d);
    DivMod(x, d);
    TimesApart(x / d, (y + k) / d, d);
    ModAdd(k, x / d - (y + k) / d, d);
    ModBelow(k, d);
  }

  lemma ModBelow(k: nat, d: nat)
    requires d > 0
    ensures k % d <= k
  {
    DivMod(k, d);
    if k < d {
      ModUnique(k, 0, k, d);
    }
  }

  /** The n-th slot of a burst at `base` is this cell, for some n. */
  predicate Reaches(d: nat, base: nat, cell: nat)
    requires d > 0
  {
    exists k :: 0 <= k < BURST && Slot(d, base, k) == cell
  }

  lemma ReachedAround(d: nat, x: nat, y: nat, base: nat, cell: nat)
    requires d > 0 && base == y && cell == x % d
    ensures Beyond(d, x, y) < BURST <==> Reaches(d, base, cell)
  {
    SlotReached(d, x, y);
  }

  lemma BurstCovers(mc: SimpleMem.Config, b: Address, a: Address)
    requires mc.depth > 0
    ensures Covers(mc, b, a) <==> Reaches(mc.depth, BaseOf(b), CellOf(mc, Place(a)))
  {
    CellOfAddress(mc, a);
    CellOfAddress(mc, b);
    ReachedAround(mc.depth, WordOf(a), WordOf(b), BaseOf(b), CellOf(mc, Place(a)));
  }

  lemma SlotReached(d: nat, x: nat, y: nat)
    requires d > 0
    ensures Beyond(d, x, y) < BURST <==> exists k :: 0 <= k < BURST && Slot(d, y, k) == x % d
  {
    if Beyond(d, x, y) < BURST {
      SlotDistance(d, x, y);
      assert Slot(d, y, (x - y) % d) == x % d;
    }
    if k :| 0 <= k < BURST && Slot(d, y, k) == x % d {
      DistanceOfSlot(d, x, y, k);
    }
  }

  /** A store at a multiple of eight covers exactly the addresses that agree with it in bits 16:12, 6:5 and 4:3. */
  lemma AlignedCovers(mc: SimpleMem.Config, b: Address, a: Address)
    requires mc.depth >= WORDS && b % 8 == 0
    ensures Covers(mc, b, a) <==> a / 0x1000 % 32 == b / 0x1000 % 32 && a / 32 % 4 == b / 32 % 4 && a / 8 % 4 == b / 8 % 4
  {
    var x := a / 0x1000 % 32 * 16 + a / 8 % 4 * 4 + a / 32 % 4;
    var y := b / 0x1000 % 32 * 16 + b / 8 % 4 * 4 + b / 32 % 4;
    assert WordOf(a) == x * 8 + a % 8 && WordOf(b) == y * 8;
    BeyondAligned(mc.depth, x, a % 8, y);
    HighDigitsDiffer(a / 0x1000 % 32, a / 8 % 4, a / 32 % 4, b / 0x1000 % 32, b / 8 % 4, b / 32 % 4);
  }

  lemma HighDigitsDiffer(h: nat, b: nat, c: nat, h': nat, b': nat, c': nat)
    requires b < 4 && c < 4 && b' < 4 && c' < 4
    ensures h * 16 + b * 4 + c == h' * 16 + b' * 4 + c' <==> h == h' && b == b' && c == c'
  {
  }

  lemma BeyondAligned(d: nat, x: nat, l: nat, y: nat)
    requires d >= WORDS && x < 512 && y < 512 && l < 8
    ensures Beyond(d, x * 8 + l, y * 8) < BURST <==> x == y
  {
    if x < y {
      ModUnique(x * 8 + l - y * 8, -1, x * 8 + l - y * 8 + d, d);
    } else {
      ModUnique(x * 8 + l - y * 8, 0, x * 8 + l - y * 8, d);
    }
  }

  /** A store changes the cell another address reads exactly if its burst covers it. */
  lemma StoreReaches(mc: SimpleMem.Config, cells: seq<Word>, before: seq<Op>, b: Address, w: Word, a: Address)
    requires |cells| == mc.depth > 0
    ensures Contents(cells, before + [Store(b, w)])[CellOf(mc, Place(a))] ==
            if Covers(mc, b, a) then w else Contents(cells, before)[CellOf(mc, Place(a))]
  {
    ContentsStep(mc, cells, before, Store(b, w));
    FillSlots(Contents(cells, before), BaseOf(b), BURST, w, CellOf(mc, Place(a)));
    BurstCovers(mc, b, a);
  }

  /** None of these operations stores where address a reads. */
  predicate Spares(mc: SimpleMem.Config, ops: seq<Op>, a: Address)
    requires mc.depth > 0
  {
    forall j :: 0 <= j < |ops| && ops[j].Store? ==> !Covers(mc, ops[j].addr, a)
  }

  lemma SparedIsLeftAlone(mc: SimpleMem.Config, ops: seq<Op>, a: Address)
    requires mc.depth > 0 && Spares(mc, ops, a)
    ensures LeavesAlone(mc, ops, CellOf(mc, Place(a)))
  {
    forall j | 0 <= j < |ops| && ops[j].Store?
      ensures forall k :: 0 <= k < BURST ==> Slot(mc.depth, BaseOf(ops[j].addr), k) != CellOf(mc, Place(a))
    {
      BurstCovers(mc, ops[j].addr, a);
    }
  }

  /**
   * Read after write between host addresses: a load answers with the word of the last store whose burst covers
   * its address, whatever was stored elsewhere since.
   */
  lemma LoadAnswersLastStore(mc: SimpleMem.Config, cells: seq<Word>, before: seq<Op>, b: Address, w: Word, after: seq<Op>, a: Address)
    requires |cells| == mc.depth > 0 && Covers(mc, b, a) && Spares(mc, after, a)
    ensures Answers(mc, cells, before + [Store(b, w)] + after + [Load(a)])
            == Answers(mc, cells, before + [Store(b, w)] + after) + [Controller.Return(a, w)]
  {
    StoreReaches(mc, cells, before, b, w, a);
    SparedIsLeftAlone(mc, after, a);
    AloneKeeps(mc, cells, before + [Store(b, w)], after, CellOf(mc, Place(a)));
    ContentsStep(mc, cells, before + [Store(b, w)] + after, Load(a));
  }
}
