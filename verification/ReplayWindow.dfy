/** The anti-replay window of an inbound child SA (section 3.4.3 of RFC 4303). */
module ReplayWindows {
  // Single-word operations, each behind a name.

  function Double(x: bv64): bv64 {
    x << 1
  }

  function Or(x: bv64, y: bv64): bv64 {
    x | y
  }

  function And(x: bv64, y: bv64): bv64 {
    x & y
  }

  predicate Meets(x: bv64, y: bv64) {
    And(x, y) != 0
  }

  /** `x << k` on a 64-bit word, one bit at a time. */
  function ShiftLeft(x: bv64, k: nat): bv64 {
    if k == 0 then x else Double(ShiftLeft(x, k - 1))
  }

  /** Whether the packet `distance` below the highest one is marked. */
  predicate Bit(bitmap: bv64, distance: nat) {
    Meets(bitmap, ShiftLeft(1, distance))
  }

  datatype Window = Window(highest: nat, bitmap: bv64) {
    predicate Permits(sequence: nat) {
      if sequence == 0 then false
      else if sequence > highest then true
      else
        var distance := highest - sequence;
        distance < 64 && !Bit(bitmap, distance)
    }

    function Record(sequence: nat): Window
      requires Permits(sequence)
    {
      if sequence > highest then
        var shift := sequence - highest;
        Window(sequence, if shift >= 64 then 1 else Or(ShiftLeft(bitmap, shift), 1))
      else Window(highest, Or(bitmap, ShiftLeft(1, highest - sequence)))
    }
  }

  const FRESH := Window(0, 0)

  // ---------- bits ----------

  const TOP: bv64 := 0x8000_0000_0000_0000

  predicate OneBit(p: bv64) {
    p != 0 && p & (p - 1) == 0
  }

  predicate TopClear(p: bv64) {
    p & TOP == 0
  }

  lemma OneBitMeets(p: bv64, q: bv64)
    requires OneBit(p) && OneBit(q)
    ensures Meets(p, q) <==> p == q
  {
  }

  lemma OneBitDouble(p: bv64)
    requires OneBit(p) && Double(p) != 0
    ensures OneBit(Double(p)) && TopClear(p)
  {
  }

  lemma DoubleZero(p: bv64)
    requires p == 0
    ensures Double(p) == 0
  {
  }

  lemma DoubledMeets(b: bv64, p: bv64)
    requires TopClear(p)
    ensures Meets(Double(b), Double(p)) <==> Meets(b, p)
  {
  }

  lemma DoubleInjective(p: bv64, q: bv64)
    requires TopClear(p) && TopClear(q) && Double(p) == Double(q)
    ensures p == q
  {
  }

  lemma DoubledIsEven(b: bv64)
    ensures !Meets(Double(b), 1) && Double(b) != 1
  {
  }

  lemma OrMeetsItself(b: bv64, p: bv64)
    requires p != 0
    ensures Meets(Or(b, p), p)
  {
  }

  lemma OrMeetsNoMore(b: bv64, q: bv64, p: bv64)
    requires q & p == 0
    ensures (b | q) & p == b & p
  {
  }

  lemma ZeroMeetsNothing(p: bv64)
    ensures !Meets(0, p) && Or(0, p) == p
  {
  }

  lemma OneIsOneBit()
    ensures OneBit(1)
  {
  }

  function Double4(x: bv64): bv64 {
    Double(Double(Double(Double(x))))
  }

  lemma Times16(x: bv64)
    ensures Double4(x) == x << 4
  {
  }

  lemma ShiftBy4(d: nat)
    ensures ShiftLeft(1, d + 4) == Double4(ShiftLeft(1, d))
  {
    hide Double;
    assert ShiftLeft(1, d + 4) == Double(ShiftLeft(1, d + 3));
    assert ShiftLeft(1, d + 3) == Double(ShiftLeft(1, d + 2));
    assert ShiftLeft(1, d + 2) == Double(ShiftLeft(1, d + 1));
  }

  lemma ShiftBy16(d: nat)
    ensures ShiftLeft(1, d + 16) == Double4(Double4(Double4(Double4(ShiftLeft(1, d)))))
  {
    hide Double4;
    ShiftBy4(d);
    ShiftBy4(d + 4);
    ShiftBy4(d + 8);
    ShiftBy4(d + 12);
  }

  lemma Times65536(x: bv64)
    ensures Double4(Double4(Double4(Double4(x)))) == x << 16
  {
  }

  lemma LastMask()
    ensures ShiftLeft(1, 63) == TOP
  {
    hide Double4, Double;
    var x3 := ShiftLeft(1, 3);
    assert x3 == 8 by {
      EighthMask();
    }
    ShiftBy4(3);
    ShiftBy4(7);
    ShiftBy4(11);
    ShiftBy16(15);
    ShiftBy16(31);
    ShiftBy16(47);
    Times16(8);
    Times16(0x80);
    Times16(0x800);
    Times65536(0x8000);
    Times65536(0x8000_0000);
    Times65536(0x8000_0000_0000);
  }

  lemma EighthMask()
    ensures ShiftLeft(1, 3) == 8
  {
    assert ShiftLeft(1, 1) == 2;
    assert ShiftLeft(1, 2) == 4;
  }

  /** None of the 64 masks is zero: otherwise the last one would be. */
  lemma {:induction false} MaskNonzero(d: nat)
    requires d < 64
    ensures ShiftLeft(1, d) != 0
    decreases 64 - d
  {
    hide Double;
    if d == 63 {
      LastMask();
    } else {
      MaskNonzero(d + 1);
      assert ShiftLeft(1, d + 1) == Double(ShiftLeft(1, d));
      if ShiftLeft(1, d) == 0 {
        DoubleZero(ShiftLeft(1, d));
      }
    }
  }

  lemma {:induction false} MaskIsOneBit(d: nat)
    requires d < 64
    ensures OneBit(ShiftLeft(1, d))
    ensures d < 63 ==> TopClear(ShiftLeft(1, d))
  {
    hide Double, OneBit, TopClear;
    if d == 0 {
      OneIsOneBit();
    } else {
      MaskIsOneBit(d - 1);
      MaskNonzero(d);
      OneBitDouble(ShiftLeft(1, d - 1));
    }
    if d < 63 {
      MaskNonzero(d + 1);
      assert ShiftLeft(1, d + 1) == Double(ShiftLeft(1, d));
      OneBitDouble(ShiftLeft(1, d));
    }
  }

  lemma {:induction false} MasksDiffer(c: nat, d: nat)
    requires c < d < 64
    ensures ShiftLeft(1, c) != ShiftLeft(1, d)
    decreases c
  {
    hide Double, OneBit, TopClear, Meets;
    if c == 0 {
      DoubledIsEven(ShiftLeft(1, d - 1));
    } else {
      MasksDiffer(c - 1, d - 1);
      MaskIsOneBit(c - 1);
      MaskIsOneBit(d - 1);
      if ShiftLeft(1, c) == ShiftLeft(1, d) {
        DoubleInjective(ShiftLeft(1, c - 1), ShiftLeft(1, d - 1));
      }
    }
  }

  lemma MarkBit(b: bv64, k: nat, d: nat)
    requires k < 64 && d < 64
    ensures Bit(Or(b, ShiftLeft(1, k)), d) <==> d == k || Bit(b, d)
  {
    hide ShiftLeft, OneBit, Or, Meets;
    MaskIsOneBit(k);
    MaskIsOneBit(d);
    MaskNonzero(d);
    OneBitMeets(ShiftLeft(1, k), ShiftLeft(1, d));
    if k == d {
      OrMeetsItself(b, ShiftLeft(1, d));
    } else {
      if k < d {
        MasksDiffer(k, d);
      } else {
        MasksDiffer(d, k);
      }
      OrMeetsOther(b, ShiftLeft(1, k), ShiftLeft(1, d));
    }
  }

  lemma OrMeetsOther(b: bv64, q: bv64, p: bv64)
    requires !Meets(q, p)
    ensures Meets(Or(b, q), p) <==> Meets(b, p)
  {
    OrMeetsNoMore(b, q, p);
  }

  /** Shifting by `k` moves every bit up by `k` places. */
  lemma {:induction false} ShiftMovesBits(b: bv64, k: nat, d: nat)
    requires d < 64
    ensures Bit(ShiftLeft(b, k), d) <==> k <= d && Bit(b, d - k)
    decreases k
  {
    hide Double, TopClear, Meets;
    if k > 0 {
      var x := ShiftLeft(b, k - 1);
      if d == 0 {
        DoubledIsEven(x);
      } else {
        MaskIsOneBit(d - 1);
        DoubledMeets(x, ShiftLeft(1, d - 1));
        ShiftMovesBits(b, k - 1, d - 1);
      }
    }
  }

  // ---------- the window as a set ----------

  /** `w` stands for the set `seen` of recorded numbers. */
  ghost predicate Represents(w: Window, seen: set<int>) {
    && (if seen == {} then w.highest == 0 else w.highest in seen)
    && (forall a <- seen :: 0 < a <= w.highest)
    && (forall d: nat | d < 64 :: Bit(w.bitmap, d) <==> w.highest - d in seen)
  }

  /** The rule in plain terms: a new nonzero number less than 64 below every recorded one. */
  ghost predicate InWindow(seen: set<int>, sequence: nat) {
    sequence > 0 && sequence !in seen && (forall a <- seen :: sequence > a - 64)
  }

  lemma ZeroHasNoBits(d: nat)
    ensures !Bit(0, d)
  {
    hide Meets;
    ZeroMeetsNothing(ShiftLeft(1, d));
  }

  lemma FreshRepresentsNothing()
    ensures Represents(FRESH, {})
  {
    forall d: nat | d < 64
      ensures !Bit(0, d)
    {
      ZeroHasNoBits(d);
    }
  }

  /** The bit test decides exactly the set rule. */
  lemma PermitsIffInWindow(w: Window, seen: set<int>, sequence: nat)
    requires Represents(w, seen)
    ensures w.Permits(sequence) <==> InWindow(seen, sequence)
  {
    hide Bit;
    if 0 < sequence <= w.highest && w.highest - sequence < 64 {
      assert Bit(w.bitmap, w.highest - sequence) <==> w.highest - (w.highest - sequence) in seen;
    }
  }

  /** Recording a permitted number adds it to the set. */
  lemma RecordAddsToSet(w: Window, seen: set<int>, sequence: nat)
    requires Represents(w, seen) && w.Permits(sequence)
    ensures Represents(w.Record(sequence), seen + {sequence})
  {
    hide Bit, ShiftLeft, Or;
    var w', seen' := w.Record(sequence), seen + {sequence};
    forall d: nat | d < 64
      ensures Bit(w'.bitmap, d) <==> w'.highest - d in seen'
    {
      if sequence <= w.highest {
        MarkBit(w.bitmap, w.highest - sequence, d);
      } else {
        SlideBits(w, seen, sequence, d);
      }
    }
  }

  lemma SlideBits(w: Window, seen: set<int>, sequence: nat, d: nat)
    requires Represents(w, seen) && sequence > w.highest && d < 64
    ensures Bit(w.Record(sequence).bitmap, d) <==> sequence - d in seen + {sequence}
  {
    hide Bit, ShiftLeft, Or;
    var shift := sequence - w.highest;
    if shift < 64 {
      OrOne(ShiftLeft(w.bitmap, shift), d);
      ShiftMovesBits(w.bitmap, shift, d);
      if shift <= d {
        assert w.highest - (d - shift) == sequence - d;
      }
    } else {
      ZeroHasNoBits(d);
      OrOne(0, d);
      ZeroMeetsNothing(1);
    }
  }

  lemma OrOne(b: bv64, d: nat)
    requires d < 64
    ensures Bit(Or(b, 1), d) <==> d == 0 || Bit(b, d)
  {
    hide Or, Bit;
    MarkBit(b, 0, d);
  }

  // ---------- whole packet sequences ----------

  /** A packet with its number, and whether it opens to a valid inner packet. */
  datatype Packet = Packet(sequence: nat, opens: bool)

  /** What the ESP handler does: test the window, open the packet, and only then record it. */
  function Accept(w: Window, p: Packet): (Window, bool) {
    if w.Permits(p.sequence) && p.opens then (w.Record(p.sequence), true) else (w, false)
  }

  function Accepted(w: Window, packets: seq<Packet>): (Window, seq<nat>)
    decreases |packets|
  {
    if packets == [] then (w, [])
    else
      var (w1, numbers) := Accepted(w, packets[..|packets| - 1]);
      var last := packets[|packets| - 1];
      var (w2, ok) := Accept(w1, last);
      (w2, if ok then numbers + [last.sequence] else numbers)
  }

  function Numbers(numbers: seq<nat>): set<int> {
    set n: int | n in numbers
  }

  /** The same run decided by the plain set rule. */
  ghost function Reference(packets: seq<Packet>): seq<nat>
    decreases |packets|
  {
    if packets == [] then []
    else
      var numbers := Reference(packets[..|packets| - 1]);
      var last := packets[|packets| - 1];
      if last.opens && InWindow(Numbers(numbers), last.sequence) then numbers + [last.sequence] else numbers
  }

  /** Over any packet sequence the window decides as the set does, and accepts no number twice. */
  lemma {:induction false} WindowRefinesSet(packets: seq<Packet>)
    ensures var (w, numbers) := Accepted(FRESH, packets);
            && numbers == Reference(packets)
            && Represents(w, Numbers(numbers))
            && (forall i, j :: 0 <= i < j < |numbers| ==> numbers[i] != numbers[j])
    decreases |packets|
  {
    if packets == [] {
      FreshRepresentsNothing();
      assert Numbers([]) == {};
    } else {
      var front, last := packets[..|packets| - 1], packets[|packets| - 1];
      WindowRefinesSet(front);
      var (w, numbers) := Accepted(FRESH, front);
      hide Represents, Window.Permits, Window.Record;
      PermitsIffInWindow(w, Numbers(numbers), last.sequence);
      if w.Permits(last.sequence) && last.opens {
        RecordAddsToSet(w, Numbers(numbers), last.sequence);
        assert Numbers(numbers + [last.sequence]) == Numbers(numbers) + {last.sequence};
      }
    }
  }

  // ---------- the window of a child SA ----------

  /** `seen` is the set of numbers recorded so far; `Valid` ties the two words to it. */
  class ReplayWindow {
    var highest: nat
    var bitmap: bv64
    ghost var seen: set<int>

    ghost predicate Valid()
      reads this
    {
      Represents(Window(highest, bitmap), seen)
    }

    constructor ()
      ensures Valid() && seen == {}
    {
      highest, bitmap, seen := 0, 0, {};
      new;
      FreshRepresentsNothing();
    }

    /** Exactly the nonzero numbers not recorded yet and less than 64 below every recorded one. */
    method Permits(sequence: nat) returns (ok: bool)
      requires Valid()
      ensures ok <==> InWindow(seen, sequence)
    {
      hide Bit, InWindow, Represents;
      PermitsIffInWindow(Window(highest, bitmap), seen, sequence);
      if sequence == 0 {
        return false;
      }
      if sequence > highest {
        return true;
      }
      var distance := highest - sequence;
      ok := distance < 64 && !Bit(bitmap, distance);
    }

    method Record(sequence: nat)
      requires Valid() && InWindow(seen, sequence)
      modifies this
      ensures Valid() && seen == old(seen) + {sequence}
    {
      hide Bit, InWindow, Represents, ShiftLeft, Or;
      ghost var w := Window(highest, bitmap);
      PermitsIffInWindow(w, seen, sequence);
      RecordAddsToSet(w, seen, sequence);
      if sequence > highest {
        var shift := sequence - highest;
        if shift >= 64 {
          bitmap := 1;
        } else {
          bitmap := Or(ShiftLeft(bitmap, shift), 1);
        }
        highest := sequence;
      } else {
        bitmap := Or(bitmap, ShiftLeft(1, highest - sequence));
      }
      seen := seen + {sequence};
    }
  }
}
