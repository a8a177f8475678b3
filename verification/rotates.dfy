/** Shifts and rotates as operations on the nine bits of carry and byte. */
module Rotates {
  import opened Bits
  import opened Status
  import opened Alu

  /** C above the byte. */
  function Nine(c: bool, v: byte): nat { v + if c then 0x100 else 0 }

  /** Nine bits turned left by one place: the top bit comes back at the bottom. */
  function TurnLeft(w: nat): nat { if w >= 0x100 then 2 * (w - 0x100) + 1 else 2 * w }

  function TurnedBy(w: nat, k: nat): nat { if k == 0 then w else TurnLeft(TurnedBy(w, k - 1)) }

  /** Carry and byte after `k` ROLs. */
  function Rolled(c: bool, v: byte, k: nat): (bool, byte) {
    if k == 0 then (c, v)
    else
      var (c', v') := Rolled(c, v, k - 1);
      (ShiftedOut(ROL, c', v'), Shifted(ROL, c', v'))
  }

  lemma {:induction false} RolTurnsLeft(c: bool, v: byte)
    ensures Nine(ShiftedOut(ROL, c, v), Shifted(ROL, c, v)) == TurnLeft(Nine(c, v)) < 0x200
  {
    assert (2 * v) % 0x100 == if v >= 0x80 then 2 * v - 0x100 else 2 * v;
    assert (2 * v + 1) % 0x100 == if v >= 0x80 then 2 * v - 0xFF else 2 * v + 1;
  }

  lemma {:induction false} NineInjective(c: bool, v: byte, c': bool, v': byte)
    requires Nine(c, v) == Nine(c', v')
    ensures c == c' && v == v'
  {
  }

  lemma {:induction false} RolledTurns(c: bool, v: byte, k: nat)
    ensures Nine(Rolled(c, v, k).0, Rolled(c, v, k).1) == TurnedBy(Nine(c, v), k)
  {
    if k > 0 {
      RolledTurns(c, v, k - 1);
      RolTurnsLeft(Rolled(c, v, k - 1).0, Rolled(c, v, k - 1).1);
    }
  }

  /** For nine bits that are not all ones a turn is doubling modulo 511, and 2^9 is 1 modulo 511. */
  lemma {:induction false} TurnIsDoubling(w: nat)
    requires w < 0x1FF
    ensures TurnLeft(w) == 2 * w % 0x1FF < 0x1FF
  {
  }

  lemma {:induction false} NineTurns(w: nat)
    requires w < 0x200
    ensures TurnedBy(w, 9) == w
  {
    if w == 0x1FF {
      assert TurnLeft(w) == w;
      Fixed(w, 9);
    } else {
      DoubledBy(w, 9);
      assert Two(9) == 512;
      assert 512 * w % 0x1FF == w by { assert 512 * w == 0x1FF * w + w; ModUnique511(w, w); }
    }
  }

  function Two(k: nat): nat { if k == 0 then 1 else 2 * Two(k - 1) }

  lemma {:induction false} Fixed(w: nat, k: nat)
    requires TurnLeft(w) == w
    ensures TurnedBy(w, k) == w
  {
    if k > 0 { Fixed(w, k - 1); }
  }

  lemma {:induction false} ModUnique511(q: nat, r: nat)
    requires r < 0x1FF
    ensures (0x1FF * q + r) % 0x1FF == r
  {
  }

  lemma {:induction false} DoubledBy(w: nat, k: nat)
    requires w < 0x1FF
    ensures TurnedBy(w, k) == Two(k) * w % 0x1FF
  {
    if k > 0 {
      var n := Two(k - 1) * w;
      DoubledBy(w, k - 1);
      TurnIsDoubling(n % 0x1FF);
      DoubleMod(n);
      TwoMore(k, w);
      hide Two, TurnLeft;
    }
  }

  lemma {:induction false} TwoMore(k: nat, w: nat)
    requires k > 0
    ensures Two(k) * w == 2 * (Two(k - 1) * w)
  {
  }

  lemma {:induction false} DoubleMod(n: nat)
    ensures 2 * n % 0x1FF == 2 * (n % 0x1FF) % 0x1FF
  {
    var q, r := n / 0x1FF, n % 0x1FF;
    assert 2 * n == 0x1FF * (2 * q) + 2 * r;
    if 2 * r < 0x1FF {
      ModUnique511(2 * q, 2 * r);
      ModUnique511(0, 2 * r);
    } else {
      ModUnique511(2 * q + 1, 2 * r - 0x1FF);
      ModUnique511(1, 2 * r - 0x1FF);
    }
  }

  lemma {:induction false} TurnsAdd(w: nat, j: nat, k: nat)
    ensures TurnedBy(TurnedBy(w, j), k) == TurnedBy(w, j + k)
    decreases k
  {
    if k > 0 { TurnsAdd(w, j, k - 1); }
  }

  lemma {:induction false} TurnedBound(w: nat, k: nat)
    requires w < 0x200
    ensures TurnedBy(w, k) < 0x200
  {
    if k > 0 { TurnedBound(w, k - 1); }
  }

  /** ROL is a cycle of nine: `k` of them leave what `k % 9` of them leave. */
  lemma {:induction false} RolCycle(c: bool, v: byte, k: nat)
    ensures Rolled(c, v, k) == Rolled(c, v, k % 9)
    decreases k
  {
    hide Rolled, TurnedBy;
    if k >= 9 {
      RolCycle(c, v, k - 9);
      assert (k - 9) % 9 == k % 9;
      var w := Nine(c, v);
      RolledTurns(c, v, k);
      RolledTurns(c, v, k - 9);
      TurnsAdd(w, k - 9, 9);
      TurnedBound(w, k - 9);
      NineTurns(TurnedBy(w, k - 9));
      NineInjective(Rolled(c, v, k).0, Rolled(c, v, k).1, Rolled(c, v, k - 9).0, Rolled(c, v, k - 9).1);
    }
  }

  /** ROR and ROL undo each other, in the byte and in C. */
  lemma {:induction false} RotatesInvert(c: bool, v: byte)
    ensures var (c', v') := (ShiftedOut(ROL, c, v), Shifted(ROL, c, v));
            ShiftedOut(ROR, c', v') == c && Shifted(ROR, c', v') == v
    ensures var (c', v') := (ShiftedOut(ROR, c, v), Shifted(ROR, c, v));
            ShiftedOut(ROL, c', v') == c && Shifted(ROL, c', v') == v
  {
    RorUndoesRol(c, v);
    RolUndoesRor(c, v);
    hide ShiftedOut, Shifted;
  }

  lemma {:induction false} RorUndoesRol(c: bool, v: byte)
    ensures var (c', v') := (ShiftedOut(ROL, c, v), Shifted(ROL, c, v));
            ShiftedOut(ROR, c', v') == c && Shifted(ROR, c', v') == v
  {
    assert (2 * v) % 0x100 == if v >= 0x80 then 2 * v - 0x100 else 2 * v;
  }

  lemma {:induction false} RolUndoesRor(c: bool, v: byte)
    ensures var (c', v') := (ShiftedOut(ROR, c, v), Shifted(ROR, c, v));
            ShiftedOut(ROL, c', v') == c && Shifted(ROL, c', v') == v
  {
    var half := v / 2;
    assert v == 2 * half + v % 2 && half < 0x80;
  }
}
