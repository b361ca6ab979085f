/**
The N-PHY tables behind their port: an address register and two data registers
for the low and the high half of a cell.  An access of the low half completes
the transfer of a cell and moves the address on by one, except on hardware
whose auto-increment is broken.

A cell is 32 bits, seen as its two halves.  8- and 16-bit tables use the low
half.
*/
module TablePort {

  type Half = n: int | 0 <= n < 0x10000

  datatype Cell = Cell(lo: Half, hi: Half)

  datatype Width = W8 | W16 | W32

  type Cells = map<int, Cell>

  function At(m: Cells, a: int): Cell {
    if a in m then m[a] else Cell(0, 0)
  }

  predicate Fits(w: Width, v: int) {
    0 <= v < match w case W8 => 0x100 case W16 => 0x10000 case W32 => 0x1_0000_0000
  }

  /** What an access of width `w` sees of a cell. */
  function Value(w: Width, c: Cell): nat {
    match w
    case W8 => c.lo % 0x100
    case W16 => c.lo
    case W32 => c.lo as int + 0x10000 * (c.hi as int)
  }

  /** The cell a write of width `w` leaves; `latch` is what the high data register holds before it. */
  function Packed(w: Width, v: nat, latch: Half): Cell
    requires Fits(w, v)
  {
    if w.W32? then Cell(v % 0x10000, v / 0x10000) else Cell(v, latch)
  }

  lemma ValueOfPacked(w: Width, v: nat, latch: Half)
    requires Fits(w, v)
    ensures Value(w, Packed(w, v, latch)) == v
  {
  }

  // ---------------------------------------------------------------- the reference: single accesses, one by one

  function Store(m: Cells, w: Width, a: nat, v: nat, latch: Half): Cells
    requires Fits(w, v)
  {
    m[a := Packed(w, v, latch)]
  }

  ghost predicate AllFit(w: Width, data: seq<nat>) {
    forall i :: 0 <= i < |data| ==> Fits(w, data[i])
  }

  function StoreEach(m: Cells, w: Width, a: nat, data: seq<nat>, latch: Half): Cells
    requires AllFit(w, data)
    decreases |data|
  {
    if data == [] then m else StoreEach(Store(m, w, a, data[0], latch), w, a + 1, data[1..], latch)
  }

  /** Cell by cell, what a run of single writes leaves: the data in its place, every other cell as it was. */
  lemma {:induction false} StoreEachAt(m: Cells, w: Width, a: nat, data: seq<nat>, latch: Half, k: int)
    requires AllFit(w, data)
    ensures At(StoreEach(m, w, a, data, latch), k) ==
            if a <= k < a + |data| then Packed(w, data[k - a], latch) else At(m, k)
    decreases |data|
  {
    if data != [] {
      StoreEachAt(Store(m, w, a, data[0], latch), w, a + 1, data[1..], latch, k);
    }
  }

  function LoadEach(m: Cells, w: Width, a: nat, n: nat): (data: seq<nat>)
    ensures |data| == n && forall i :: 0 <= i < n ==> data[i] == Value(w, At(m, a + i))
  {
    seq<nat>(n, i => Value(w, At(m, a + i)))
  }

  /** What is written in bulk is read back, at every width. */
  lemma ReadAfterWrite(m: Cells, w: Width, a: nat, data: seq<nat>, latch: Half)
    requires AllFit(w, data)
    ensures LoadEach(StoreEach(m, w, a, data, latch), w, a, |data|) == data
  {
    var m' := StoreEach(m, w, a, data, latch);
    forall i | 0 <= i < |data| ensures LoadEach(m', w, a, |data|)[i] == data[i] {
      StoreEachAt(m, w, a, data, latch, a + i);
      ValueOfPacked(w, data[i], latch);
    }
  }

  lemma {:induction false} StoreEachAppend(m: Cells, w: Width, a: nat, data: seq<nat>, v: nat, latch: Half)
    requires AllFit(w, data) && Fits(w, v)
    ensures AllFit(w, data + [v])
    ensures StoreEach(m, w, a, data + [v], latch) ==
            Store(StoreEach(m, w, a, data, latch), w, a + |data|, v, latch)
    decreases |data|
  {
    if data == [] {
      assert StoreEach(m, w, a, [v], latch) == StoreEach(Store(m, w, a, v, latch), w, a + 1, [], latch);
    } else {
      assert (data + [v])[1..] == data[1..] + [v];
      StoreEachAppend(Store(m, w, a, data[0], latch), w, a + 1, data[1..], v, latch);
    }
  }

  // ---------------------------------------------------------------- the port and the driver's accessors

  class Port {
    const autoIncrement: bool
    const bcm43224: bool
    var mem: Cells
    var addr: nat
    var writeHi: Half
    var readHi: Half

    constructor (autoIncrement: bool, bcm43224: bool)
      ensures this.autoIncrement == autoIncrement && this.bcm43224 == bcm43224
    {
      this.autoIncrement, this.bcm43224 := autoIncrement, bcm43224;
      mem, addr, writeHi, readHi := map[], 0, 0, 0;
    }

    method SetAddr(a: nat)
      modifies `addr
      ensures addr == a
    {
      addr := a;
    }

    method ReadLo() returns (v: Half)
      modifies `addr, `readHi
      ensures v == At(mem, old(addr)).lo && readHi == At(mem, old(addr)).hi
      ensures addr == if autoIncrement then old(addr) + 1 else old(addr)
    {
      v := At(mem, addr).lo;
      readHi := At(mem, addr).hi;
      if autoIncrement { addr := addr + 1; }
    }

    method WriteLo(v: Half)
      modifies `mem, `addr
      ensures mem == old(mem)[old(addr) := Cell(v, writeHi)]
      ensures addr == if autoIncrement then old(addr) + 1 else old(addr)
    {
      mem := mem[addr := Cell(v, writeHi)];
      if autoIncrement { addr := addr + 1; }
    }

    /** One element from where the address register points. */
    method Fetch(w: Width) returns (v: nat)
      modifies `addr, `readHi
      ensures v == Value(w, At(mem, old(addr)))
      ensures addr == if autoIncrement then old(addr) + 1 else old(addr)
    {
      var lo := ReadLo();
      match w {
        case W8 => v := lo % 0x100;
        case W16 => v := lo;
        case W32 => v := lo as int + 0x10000 * (readHi as int);
      }
    }

    method Deposit(w: Width, v: nat)
      requires Fits(w, v)
      modifies `mem, `addr, `writeHi
      ensures mem == Store(old(mem), w, old(addr), v, old(writeHi))
      ensures !w.W32? ==> writeHi == old(writeHi)
      ensures addr == if autoIncrement then old(addr) + 1 else old(addr)
    {
      if w.W32? {
        writeHi := v / 0x10000;
        WriteLo(v % 0x10000);
      } else {
        WriteLo(v);
      }
    }

    /** b43_ntab_read. */
    method Read(w: Width, offset: nat) returns (v: nat)
      modifies `addr, `readHi
      ensures v == Value(w, At(mem, offset))
    {
      SetAddr(offset);
      v := Fetch(w);
    }

    /** b43_ntab_write. */
    method Write(w: Width, offset: nat, v: nat)
      requires Fits(w, v)
      modifies `mem, `addr, `writeHi
      ensures mem == Store(old(mem), w, offset, v, old(writeHi))
      ensures !w.W32? ==> writeHi == old(writeHi)
    {
      SetAddr(offset);
      Deposit(w, v);
    }

    /**
    b43_ntab_read_bulk: with a working auto-increment, or with the re-addressing
    the BCM43224 gets, the elements are those of single reads; with neither, the
    first cell is read over and over.
    */
    method ReadBulk(w: Width, offset: nat, n: nat) returns (data: seq<nat>)
      modifies `addr, `readHi
      ensures autoIncrement || bcm43224 ==> data == LoadEach(mem, w, offset, n)
      ensures !autoIncrement && !bcm43224 ==>
                |data| == n && forall i :: 0 <= i < n ==> data[i] == Value(w, At(mem, offset))
    {
      data := [];
      SetAddr(offset);
      var i := 0;
      while i < n
        invariant 0 <= i <= n && |data| == i
        invariant addr == offset || autoIncrement || bcm43224
        invariant autoIncrement && !bcm43224 ==> addr == offset + i
        invariant autoIncrement || bcm43224 ==> forall k :: 0 <= k < i ==> data[k] == Value(w, At(mem, offset + k))
        invariant !autoIncrement && !bcm43224 ==> forall k :: 0 <= k < i ==> data[k] == Value(w, At(mem, offset))
      {
        if bcm43224 {
          var dummy := ReadLo();
          SetAddr(offset + i);
        }
        var v := Fetch(w);
        data := data + [v];
        i := i + 1;
      }
    }

    /**
    b43_ntab_write_bulk: the re-addressing form (table 9 only) has the effect of
    auto-increment, which is that of single writes; with neither, every element
    lands on the first cell.
    */
    method WriteBulk(w: Width, offset: nat, data: seq<nat>)
      requires AllFit(w, data)
      modifies `mem, `addr, `writeHi, `readHi
      ensures autoIncrement || (bcm43224 && offset / 1024 == 9) ==>
                mem == StoreEach(old(mem), w, offset, data, old(writeHi))
      ensures !autoIncrement && !(bcm43224 && offset / 1024 == 9) && data != [] ==>
                mem == Store(old(mem), w, offset, data[|data| - 1], old(writeHi))
      ensures data == [] ==> mem == old(mem)
    {
      SetAddr(offset);
      var readdress := offset / 1024 == 9 && bcm43224;
      var i := 0;
      assert data[..0] == [];
      while i < |data|
        invariant 0 <= i <= |data|
        invariant !w.W32? ==> writeHi == old(writeHi)
        invariant autoIncrement && !readdress ==> addr == offset + i
        invariant !autoIncrement && !readdress ==> addr == offset
        invariant autoIncrement || readdress ==> mem == StoreEach(old(mem), w, offset, data[..i], old(writeHi))
        invariant !autoIncrement && !readdress ==>
                    mem == if i == 0 then old(mem) else Store(old(mem), w, offset, data[i - 1], old(writeHi))
      {
        if readdress {
          var dummy := ReadLo();
          SetAddr(offset + i);
        }
        assert data[..i + 1] == data[..i] + [data[i]];
        StoreEachAppend(old(mem), w, offset, data[..i], data[i], old(writeHi));
        Deposit(w, data[i]);
        i := i + 1;
      }
      assert data[..|data|] == data;
    }
  }
}
