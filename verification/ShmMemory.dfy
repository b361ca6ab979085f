/**
The shared memory window of the MAC core.

The device exposes its memories as 32-bit words behind a control register that
selects a routing and a word offset, and two data registers: DATA (the low half
or the whole word) and DATA_UNALIGNED (the high half).  The driver turns byte
offsets of the SHARED routing into such accesses, splitting a 32-bit access at
4k + 2 over two words.

A word is represented by its two 16-bit halves.  `Byte` is the reference view:
the SHARED routing as a little-endian byte array.
*/
module ShmMemory {

  type Half = n: int | 0 <= n < 0x10000

  /** Half-word contents; halves 2k and 2k + 1 are the word that control value k selects. */
  type Memory = map<int, Half>

  const UCODE := 0
  const SHARED := 1
  const SCRATCH := 2
  const HW := 3
  const RCMTA := 4

  const HOSTF1 := 0x5E
  const HOSTF2 := 0x60
  const HOSTF3 := 0x62

  function Get(m: Memory, h: int): Half {
    if h in m then m[h] else 0
  }

  /** Two memories hold the same contents. */
  ghost predicate Same(m: Memory, m': Memory) {
    forall h :: Get(m, h) == Get(m', h)
  }

  /** The value of the control register that selects a word. */
  function Control(routing: nat, word: nat): nat {
    routing * 0x10000 + word
  }

  /** The half-word a 16-bit access at `offset` reaches. */
  function HalfAt(routing: nat, offset: nat): nat {
    if routing != SHARED then 2 * Control(routing, offset)
    else 2 * Control(SHARED, offset / 4) + (if offset % 4 == 0 then 0 else 1)
  }

  function Load16(m: Memory, routing: nat, offset: nat): Half {
    Get(m, HalfAt(routing, offset))
  }

  function Load32(m: Memory, routing: nat, offset: nat): nat {
    var h := HalfAt(routing, offset);
    Get(m, h) + 0x10000 * Get(m, h + 1)
  }

  function Store16(m: Memory, routing: nat, offset: nat, value: Half): Memory {
    m[HalfAt(routing, offset) := value]
  }

  function Store32(m: Memory, routing: nat, offset: nat, value: nat): Memory
    requires value < 0x1_0000_0000
  {
    var h := HalfAt(routing, offset);
    m[h := value % 0x10000][h + 1 := value / 0x10000]
  }

  // ---------------------------------------------------------------- the byte array

  /** Byte `b` of the SHARED routing, bytes counted little-endian inside a word. */
  function Byte(m: Memory, b: nat): nat {
    var half := Get(m, 2 * Control(SHARED, 0) + b / 2);
    if b % 2 == 0 then half % 256 else half / 256
  }

  /** Where an access lands: even offsets at themselves, odd ones on the upper half of their word. */
  function Landing(offset: nat): nat {
    4 * (offset / 4) + (if offset % 4 == 0 then 0 else 2)
  }

  lemma HalfOfLanding(offset: nat)
    ensures HalfAt(SHARED, offset) == 2 * Control(SHARED, 0) + Landing(offset) / 2
    ensures Landing(offset) % 2 == 0
    ensures Landing(offset) == offset <==> offset % 2 == 0
  {
    var q, r := offset / 4, offset % 4;
    assert offset == 4 * q + r;
    if r == 0 {
      assert offset == 2 * (2 * q);
    } else {
      assert Landing(offset) == 2 * (2 * q + 1);
      if r != 2 { assert offset == 2 * (2 * q + r / 2) + 1; }
    }
  }

  /** A 16-bit read is the two bytes of its landing offset, least significant first. */
  lemma Load16IsLittleEndian(m: Memory, offset: nat)
    ensures var o := Landing(offset);
            Load16(m, SHARED, offset) == Byte(m, o) + 256 * Byte(m, o + 1)
  {
    HalfOfLanding(offset);
    var o := Landing(offset);
    assert (o + 1) / 2 == o / 2;
  }

  /** A 32-bit read, whole or split over two words, is four consecutive bytes. */
  lemma Load32IsLittleEndian(m: Memory, offset: nat)
    ensures var o := Landing(offset);
            Load32(m, SHARED, offset) ==
            Byte(m, o) + 0x100 * Byte(m, o + 1) + 0x1_0000 * Byte(m, o + 2) + 0x100_0000 * Byte(m, o + 3)
  {
    HalfOfLanding(offset);
    var o := Landing(offset);
    assert (o + 1) / 2 == o / 2 && (o + 2) / 2 == o / 2 + 1 && (o + 3) / 2 == o / 2 + 1;
  }

  /** A 16-bit write changes its two bytes and no other byte. */
  lemma Store16IsLittleEndian(m: Memory, offset: nat, value: Half, b: nat)
    ensures var o := Landing(offset);
            Byte(Store16(m, SHARED, offset, value), b) ==
            if b == o then value % 256
            else if b == o + 1 then value / 256
            else Byte(m, b)
  {
    HalfOfLanding(offset);
    var o := Landing(offset);
    assert b / 2 == o / 2 <==> b == o || b == o + 1;
  }

  /** A 32-bit write changes its four bytes and no other byte. */
  lemma Store32IsLittleEndian(m: Memory, offset: nat, value: nat, b: nat)
    requires value < 0x1_0000_0000
    ensures var o := Landing(offset);
            Byte(Store32(m, SHARED, offset, value), b) ==
            if b == o then value % 0x100
            else if b == o + 1 then value / 0x100 % 0x100
            else if b == o + 2 then value / 0x1_0000 % 0x100
            else if b == o + 3 then value / 0x100_0000
            else Byte(m, b)
  {
    HalfOfLanding(offset);
    var o := Landing(offset);
    assert b / 2 == o / 2 <==> b == o || b == o + 1;
    assert b / 2 == o / 2 + 1 <==> b == o + 2 || b == o + 3;
    SplitBytes(value);
  }

  lemma SplitBytes(value: nat)
    requires value < 0x1_0000_0000
    ensures value % 0x10000 % 0x100 == value % 0x100
    ensures value % 0x10000 / 0x100 == value / 0x100 % 0x100
    ensures value / 0x10000 / 0x100 == value / 0x100_0000
  {
    var low, high := value % 0x10000, value / 0x10000;
    assert value == 0x100 * (0x100 * high + low / 0x100) + low % 0x100;
    assert value == 0x100_0000 * (high / 0x100) + (0x10000 * (high % 0x100) + low);
  }

  /** The byte array sees an access at its own offset exactly when the offset is even. */
  lemma LittleEndianExactlyAtEvenOffsets(offset: nat)
    ensures (forall m: Memory :: Load16(m, SHARED, offset) == Byte(m, offset) + 256 * Byte(m, offset + 1))
            <==> offset % 2 == 0
  {
    if offset % 2 == 0 {
      forall m: Memory ensures Load16(m, SHARED, offset) == Byte(m, offset) + 256 * Byte(m, offset + 1) {
        Load16IsLittleEndian(m, offset);
      }
    } else {
      HalfOfLanding(offset);
      var h := HalfAt(SHARED, offset);
      var m: Memory := map[h := 1];
      assert Get(m, h) == 1;
      assert Byte(m, offset) + 256 * Byte(m, offset + 1) != 1;
    }
  }

  /** No access of the SHARED routing with a 16-bit offset reaches another routing's words. */
  lemma RoutingsDisjoint(routing: nat, word: nat, offset: nat)
    requires routing != SHARED && word < 0x10000 && offset < 0x10000
    ensures var h := HalfAt(SHARED, offset);
            var k := HalfAt(routing, word);
            h != k && h + 1 != k && h != k + 1 && h + 1 != k + 1
  {
  }

  lemma Split32(m: Memory, offset: nat)
    ensures var h := HalfAt(SHARED, offset);
            var v := Load32(m, SHARED, offset);
            v < 0x1_0000_0000 && v % 0x10000 == Get(m, h) && v / 0x10000 == Get(m, h + 1)
  {
  }

  // ---------------------------------------------------------------- host flags

  /** The 48 host flag bits as three half-words. */
  function HostFlags(m: Memory): nat {
    (Load16(m, SHARED, HOSTF3) * 0x10000 + Load16(m, SHARED, HOSTF2)) * 0x10000 + Load16(m, SHARED, HOSTF1)
  }

  function WithHostFlags(m: Memory, value: nat): Memory {
    var m1 := Store16(m, SHARED, HOSTF1, value % 0x10000);
    var m2 := Store16(m1, SHARED, HOSTF2, value / 0x10000 % 0x10000);
    Store16(m2, SHARED, HOSTF3, value / 0x1_0000_0000 % 0x10000)
  }

  /** Host flags come back modulo 2^48, and only bytes 0x5E to 0x63 move. */
  lemma HostFlagsRoundTrip(m: Memory, value: nat)
    ensures HostFlags(WithHostFlags(m, value)) == value % 0x1_0000_0000_0000
    ensures forall b: nat :: !(0x5E <= b <= 0x63) ==> Byte(WithHostFlags(m, value), b) == Byte(m, b)
    ensures forall routing: nat, word: nat :: routing != SHARED && word < 0x10000 ==>
              Load32(WithHostFlags(m, value), routing, word) == Load32(m, routing, word)
  {
    var l, mi, h := value % 0x10000, value / 0x10000 % 0x10000, value / 0x1_0000_0000 % 0x10000;
    Split48(value);
    var m1 := Store16(m, SHARED, HOSTF1, l);
    var m2 := Store16(m1, SHARED, HOSTF2, mi);
    forall b: nat | !(0x5E <= b <= 0x63) ensures Byte(WithHostFlags(m, value), b) == Byte(m, b) {
      Store16IsLittleEndian(m, HOSTF1, l, b);
      Store16IsLittleEndian(m1, HOSTF2, mi, b);
      Store16IsLittleEndian(m2, HOSTF3, h, b);
    }
  }

  lemma Split48(value: nat)
    ensures value % 0x1_0000_0000_0000 ==
            (value / 0x1_0000_0000 % 0x10000 * 0x10000 + value / 0x10000 % 0x10000) * 0x10000 + value % 0x10000
  {
    var q := value / 0x10000;
    var p := q / 0x10000;
    assert value / 0x1_0000_0000 == p;
    var t := p / 0x10000;
    assert value == t * 0x1_0000_0000_0000 + (p % 0x10000 * 0x10000 + q % 0x10000) * 0x10000 + value % 0x10000;
  }

  /** Writing back the flags that were read changes nothing. */
  lemma HostFlagsWriteBack(m: Memory)
    ensures Same(WithHostFlags(m, HostFlags(m)), m)
  {
    Unpack48(Load16(m, SHARED, HOSTF1), Load16(m, SHARED, HOSTF2), Load16(m, SHARED, HOSTF3));
  }

  lemma Unpack48(l: nat, mi: nat, h: nat)
    requires l < 0x10000 && mi < 0x10000 && h < 0x10000
    ensures var v := (h * 0x10000 + mi) * 0x10000 + l;
            v % 0x10000 == l && v / 0x10000 % 0x10000 == mi && v / 0x1_0000_0000 % 0x10000 == h
  {
    var v := (h * 0x10000 + mi) * 0x10000 + l;
    assert v / 0x10000 == h * 0x10000 + mi;
    assert v / 0x1_0000_0000 == h;
  }

  // ---------------------------------------------------------------- the driver's accessors

  class Shm {
    var memory: Memory
    var control: nat

    constructor ()
      ensures memory == map[] && control == 0
    {
      memory, control := map[], 0;
    }

    method ControlWord(routing: nat, word: nat)
      modifies `control
      ensures control == Control(routing, word)
    {
      control := routing * 0x10000 + word;
    }

    method Read32(routing: nat, offset: nat) returns (r: nat)
      modifies `control
      ensures r == Load32(memory, routing, offset)
    {
      var o := offset;
      if routing == SHARED {
        if offset % 4 != 0 {
          ControlWord(routing, offset / 4);
          var low := Get(memory, 2 * control + 1);
          ControlWord(routing, offset / 4 + 1);
          r := low + Get(memory, 2 * control) * 0x10000;
          return;
        }
        o := offset / 4;
      }
      ControlWord(routing, o);
      r := Get(memory, 2 * control) + Get(memory, 2 * control + 1) * 0x10000;
    }

    method Read16(routing: nat, offset: nat) returns (r: Half)
      modifies `control
      ensures r == Load16(memory, routing, offset)
    {
      var o := offset;
      if routing == SHARED {
        if offset % 4 != 0 {
          ControlWord(routing, offset / 4);
          r := Get(memory, 2 * control + 1);
          return;
        }
        o := offset / 4;
      }
      ControlWord(routing, o);
      r := Get(memory, 2 * control);
    }

    method Write32(routing: nat, offset: nat, value: nat)
      requires value < 0x1_0000_0000
      modifies `control, `memory
      ensures memory == Store32(old(memory), routing, offset, value)
    {
      var o := offset;
      if routing == SHARED {
        if offset % 4 != 0 {
          ControlWord(routing, offset / 4);
          memory := memory[2 * control + 1 := value % 0x10000];
          ControlWord(routing, offset / 4 + 1);
          memory := memory[2 * control := value / 0x10000 % 0x10000];
          return;
        }
        o := offset / 4;
      }
      ControlWord(routing, o);
      memory := memory[2 * control := value % 0x10000][2 * control + 1 := value / 0x10000];
    }

    method Write16(routing: nat, offset: nat, value: Half)
      modifies `control, `memory
      ensures memory == Store16(old(memory), routing, offset, value)
    {
      var o := offset;
      if routing == SHARED {
        if offset % 4 != 0 {
          ControlWord(routing, offset / 4);
          memory := memory[2 * control + 1 := value];
          return;
        }
        o := offset / 4;
      }
      ControlWord(routing, o);
      memory := memory[2 * control := value];
    }

    method HfRead() returns (flags: nat)
      modifies `control
      ensures flags == HostFlags(memory)
    {
      flags := Read16(SHARED, HOSTF3);
      flags := flags * 0x10000;
      var mid := Read16(SHARED, HOSTF2);
      flags := (flags + mid) * 0x10000;
      var low := Read16(SHARED, HOSTF1);
      flags := flags + low;
    }

    method HfWrite(value: nat)
      modifies `control, `memory
      ensures memory == WithHostFlags(old(memory), value)
    {
      Write16(SHARED, HOSTF1, value % 0x10000);
      Write16(SHARED, HOSTF2, value / 0x10000 % 0x10000);
      Write16(SHARED, HOSTF3, value / 0x1_0000_0000 % 0x10000);
    }

    method ValidateWholeWords() returns (ok: bool)
      modifies `control, `memory
      ensures ok
      ensures forall h :: h != 0x20000 && h != 0x20001 ==> Get(memory, h) == Get(old(memory), h)
    {
      Write32(SHARED, 0, 0x55AAAA55);
      var v := Read32(SHARED, 0);
      ok := v == 0x55AAAA55;
      Write32(SHARED, 0, 0xAA5555AA);
      v := Read32(SHARED, 0);
      ok := ok && v == 0xAA5555AA;
    }

    method ValidateSplitWords() returns (readOk: bool, writeOk: bool)
      modifies `control, `memory
      ensures readOk && writeOk
      ensures forall h :: !(0x20000 <= h < 0x20004) ==> Get(memory, h) == Get(old(memory), h)
    {
      Write16(SHARED, 0, 0x1122);
      Write16(SHARED, 2, 0x3344);
      Write16(SHARED, 4, 0x5566);
      Write16(SHARED, 6, 0x7788);
      var v := Read32(SHARED, 2);
      readOk := v == 0x55663344;
      Write32(SHARED, 2, 0xAABBCCDD);
      var v0 := Read16(SHARED, 0);
      var v2 := Read16(SHARED, 2);
      var v4 := Read16(SHARED, 4);
      var v6 := Read16(SHARED, 6);
      writeOk := v0 == 0x1122 && v2 == 0xCCDD && v4 == 0xAABB && v6 == 0x7788;
    }

    /** The self-test of the accessors never reports an error and leaves the memory as it was. */
    method ValidateChipaccess() returns (ok: bool, splitRead: bool, splitWrite: bool)
      modifies `control, `memory
      ensures ok && splitRead && splitWrite
      ensures Same(memory, old(memory))
    {
      var backup0 := Read32(SHARED, 0);
      var backup4 := Read32(SHARED, 4);
      Split32(memory, 0);
      Split32(memory, 4);
      ok := ValidateWholeWords();
      splitRead, splitWrite := ValidateSplitWords();
      Write32(SHARED, 0, backup0);
      Write32(SHARED, 4, backup4);
    }
  }
}
