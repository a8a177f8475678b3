/** The SHEILA stubs and the ROM store, as the mutable objects the memory map owns. */
module Devices {
  import opened Bits
  import opened BbcMemory

  /** The 6845 stub: an index latch and the eighteen registers behind it. */
  class Crtc {
    var selected: nat
    const regs: array<byte>

    ghost predicate Valid()
      reads this
    {
      regs.Length == CRTC_REGS && selected < CRTC_REGS
    }

    ghost function State(): CrtcState
      reads this, regs
    {
      CrtcState(selected, regs[..])
    }

    constructor ()
      ensures Valid() && fresh(regs)
      ensures State() == CrtcState(0, Zeros(CRTC_REGS))
    {
      selected := 0;
      regs := new byte[CRTC_REGS](_ => 0);
    }

    method Read(reg: byte) returns (v: byte)
      requires Valid()
      ensures v == if reg % 2 == 0 then OPEN_BUS else State().regs[State().selected]
    {
      if reg % 2 == 0 {
        return OPEN_BUS;
      }
      v := regs[selected];
    }

    method Write(reg: byte, value: byte)
      requires Valid()
      modifies this, regs
      ensures Valid()
      ensures reg % 2 == 0 ==> State() == old(State()).(selected := value % 32 % CRTC_REGS)
      ensures reg % 2 == 1 ==> State() == old(State()).(regs := old(regs[..])[selected := value])
    {
      if reg % 2 == 0 {
        selected := value % 32;
        if selected >= CRTC_REGS {
          selected := selected % CRTC_REGS;
        }
        return;
      }
      regs[selected] := value;
    }

    method Zero()
      requires Valid()
      modifies this, regs
      ensures Valid() && State() == CrtcState(0, Zeros(CRTC_REGS))
    {
      selected := 0;
      for i := 0 to CRTC_REGS
        invariant regs.Length == CRTC_REGS && selected == 0
        invariant forall k :: 0 <= k < i ==> regs[k] == 0
      {
        regs[i] := 0;
      }
      assert regs[..] == Zeros(CRTC_REGS);
    }

    /** An index out of range in the captured state is reduced, as a write of it would be. */
    method Restore(s: CrtcState)
      requires regs.Length == CRTC_REGS == |s.regs|
      modifies this, regs
      ensures Valid()
      ensures State() == CrtcState(s.selected % CRTC_REGS, s.regs)
    {
      forall i | 0 <= i < CRTC_REGS { regs[i] := s.regs[i]; }
      selected := s.selected;
      if selected >= CRTC_REGS {
        selected := selected % CRTC_REGS;
      }
      assert regs[..] == s.regs;
    }
  }

  /** A stub that only stores: last write wins, `readable` false for the two that answer with open bus. */
  class RegisterFile {
    const readable: bool
    var regs: seq<byte>

    constructor (size: nat, readable: bool)
      ensures regs == Zeros(size) && this.readable == readable
    {
      this.readable := readable;
      regs := Zeros(size);
    }

    method Read(reg: nat) returns (v: byte)
      requires reg < |regs|
      ensures v == if readable then regs[reg] else OPEN_BUS
    {
      v := if readable then regs[reg] else OPEN_BUS;
    }

    method Write(reg: nat, value: byte)
      requires reg < |regs|
      modifies this
      ensures regs == old(regs)[reg := value]
    {
      regs := regs[reg := value];
    }

    method Zero()
      modifies this
      ensures regs == Zeros(|old(regs)|)
    {
      regs := Zeros(|regs|);
    }

    method Restore(captured: seq<byte>)
      modifies this
      ensures regs == captured
    {
      regs := captured;
    }
  }

  datatype RomError = NoOsRom | InvalidRomSize | BankOutOfRange | RestoreMismatch

  /** The OS image, the four sideways slots and the bank latch. */
  class RomBanks {
    var os: seq<byte>
    var osLoaded: bool
    var sideways: seq<seq<byte>>
    var loaded: seq<bool>
    var bank: nat

    ghost predicate Valid()
      reads this
    {
      && |os| == ROM_SIZE && |sideways| == BANKS && |loaded| == BANKS && bank < BANKS
      && forall i :: 0 <= i < BANKS ==> |sideways[i]| == ROM_SIZE
    }

    constructor ()
      ensures Valid()
      ensures os == Zeros(ROM_SIZE) && !osLoaded && bank == 0
      ensures sideways == seq(BANKS, _ => Zeros(ROM_SIZE)) && loaded == seq(BANKS, _ => false)
    {
      os, osLoaded, bank := Zeros(ROM_SIZE), false, 0;
      sideways, loaded := seq(BANKS, _ => Zeros(ROM_SIZE)), seq(BANKS, _ => false);
    }
  }

  /** The stubs on the SHEILA page. */
  class Peripherals {
    const crtc: Crtc
    const files: seq<RegisterFile>
    ghost const repr: set<object>

    ghost predicate Valid()
      reads this, repr
      ensures Valid() ==> this in repr
    {
      && this in repr && crtc in repr && crtc.regs in repr && crtc.regs as object !in files
      && |files| == STUBS
      && (forall i :: 0 <= i < STUBS ==> files[i] in repr)
      && (forall i, j :: 0 <= i < j < STUBS ==> files[i] != files[j])
      && crtc.Valid()
      && forall i :: 0 <= i < STUBS ==> |files[i].regs| == Size(i) && files[i].readable == Readable(i)
    }

    ghost function FileBytes(): seq<seq<byte>>
      reads files
    {
      seq(|files|, i requires 0 <= i < |files| reads files => files[i].regs)
    }

    constructor ()
      ensures Valid() && fresh(repr)
      ensures crtc.State() == CrtcState(0, Zeros(CRTC_REGS)) && FileBytes() == ZeroFiles()
    {
      var c := new Crtc();
      crtc := c;
      var fs := NewFiles();
      files := fs;
      repr := {this, c, c.regs} + set f | f in fs;
      new;
      assert FileBytes() == ZeroFiles();
    }

    /** Every stub back to its power-on registers. */
    method Zero()
      requires Valid()
      modifies crtc, crtc.regs, files
      ensures Valid()
      ensures crtc.State() == CrtcState(0, Zeros(CRTC_REGS)) && FileBytes() == ZeroFiles()
    {
      crtc.Zero();
      for k := 0 to STUBS
        invariant crtc.Valid() && crtc.State() == CrtcState(0, Zeros(CRTC_REGS))
        invariant forall i :: 0 <= i < k ==> files[i].regs == Zeros(Size(i))
        invariant forall i :: 0 <= i < STUBS ==> |files[i].regs| == Size(i)
      {
        files[k].Zero();
      }
      assert FileBytes() == ZeroFiles();
    }

    method Restore(capturedCrtc: CrtcState, captured: seq<seq<byte>>)
      requires Valid() && |capturedCrtc.regs| == CRTC_REGS
      requires |captured| == STUBS && forall i :: 0 <= i < STUBS ==> |captured[i]| == Size(i)
      modifies crtc, crtc.regs, files
      ensures Valid()
      ensures crtc.State() == CrtcState(capturedCrtc.selected % CRTC_REGS, capturedCrtc.regs) && FileBytes() == captured
    {
      crtc.Restore(capturedCrtc);
      for k := 0 to STUBS
        invariant crtc.Valid() && crtc.State() == CrtcState(capturedCrtc.selected % CRTC_REGS, capturedCrtc.regs)
        invariant forall i :: 0 <= i < k ==> files[i].regs == captured[i]
        invariant forall i :: 0 <= i < STUBS ==> |files[i].regs| == Size(i)
      {
        files[k].Restore(captured[k]);
      }
      assert FileBytes() == captured;
    }

    static method NewFiles() returns (fs: seq<RegisterFile>)
      ensures |fs| == STUBS && fresh(fs)
      ensures forall i, j :: 0 <= i < j < STUBS ==> fs[i] != fs[j]
      ensures forall i :: 0 <= i < STUBS ==> fs[i].regs == Zeros(Size(i)) && fs[i].readable == Readable(i)
    {
      fs := [];
      for k := 0 to STUBS
        invariant |fs| == k && fresh(fs)
        invariant forall i, j :: 0 <= i < j < k ==> fs[i] != fs[j]
        invariant forall i :: 0 <= i < k ==> fs[i].regs == Zeros(Size(i)) && fs[i].readable == Readable(i)
      {
        var f := new RegisterFile(Size(k), Readable(k));
        fs := fs + [f];
      }
    }
  }
}
