/**
The hardware key memory, built on the shared memory accessors.

A key slot is spread over four places: an algorithm word in the key index
block, sixteen key bytes in the key table, and for pairwise slots a receive
match address (MAC) and a TKIP phase 1 entry.  The reference is a slot map that
says, slot by slot, which key material was last written there, if any.
*/
module KeyMemory {
  import opened Pairs
  import opened ShmMemory

  const KEYSIZE := 16
  const GROUP_KEYS := 4
  const PAIRWISE_KEYS := 50
  const KEY_SLOTS := 58
  const KEYTABLE_SIZE := KEY_SLOTS * KEYSIZE
  const TKIPTSCTTAK := 0x318
  const KEYIDXBLOCK := 0x5D4

  const ALGO_NONE := 0
  const ALGO_TKIP := 2

  type Octet = n: int | 0 <= n < 256

  /** Where the firmware put things: fixed for the life of the interface. */
  datatype Layout = Layout(newApi: bool, hwtkip: bool, ktp: nat, kidx: seq<nat>) {
    ghost predicate Valid() {
      && |kidx| == KEY_SLOTS
      && (forall i :: 0 <= i < KEY_SLOTS ==> kidx[i] < KEY_SLOTS)
      && (forall i, k :: 0 <= i < k < KEY_SLOTS ==> kidx[i] != kidx[k])
      && ktp % 2 == 0
      && ktp + KEYTABLE_SIZE <= 0x10000
      && KEYIDXBLOCK + 2 * KEY_SLOTS <= ktp
    }

    /** The first pairwise slot. */
    function Start(): nat {
      if newApi then GROUP_KEYS else 2 * GROUP_KEYS
    }

    /** How many slots the firmware interface uses. */
    function Count(): nat {
      Start() + PAIRWISE_KEYS
    }

    predicate Pairwise(i: nat) {
      Start() <= i < Count()
    }

    /** A default transmit key is copied to a default receive slot by old firmware. */
    predicate Mirrored(i: nat) {
      i <= 3 && !newApi
    }
  }

  // ---------------------------------------------------------------- half-words of a slot

  function KeyHalf(l: Layout, i: nat, j: nat): nat {
    0x20000 + l.ktp / 2 + 8 * i + j
  }

  function AlgoHalf(l: Layout, i: nat): nat
    requires i < |l.kidx|
  {
    0x20000 + KEYIDXBLOCK / 2 + l.kidx[i]
  }

  function TkipHalf(l: Layout, i: nat, j: nat): int {
    0x20000 + TKIPTSCTTAK / 2 + 7 * (i - l.Start()) + j
  }

  function MacHalf(l: Layout, i: nat, j: nat): int {
    0x80000 + 4 * (i - l.Start()) + j
  }

  ghost predicate InKey(l: Layout, i: nat, h: int) {
    KeyHalf(l, i, 0) <= h < KeyHalf(l, i, 8)
  }

  ghost predicate InTkip(l: Layout, i: nat, h: int) {
    l.Pairwise(i) && TkipHalf(l, i, 0) <= h < TkipHalf(l, i, 7)
  }

  /** The part of slot `i` that must not change under a live MAC. */
  ghost predicate Guarded(l: Layout, i: nat, h: int)
    requires i < |l.kidx|
  {
    || InKey(l, i, h)
    || h == AlgoHalf(l, i)
    || InTkip(l, i, h)
  }

  ghost predicate InMac(l: Layout, i: nat, h: int) {
    l.Pairwise(i) && MacHalf(l, i, 0) <= h < MacHalf(l, i, 3)
  }

  ghost predicate Owned(l: Layout, i: nat, h: int)
    requires i < |l.kidx|
  {
    Guarded(l, i, h) || InMac(l, i, h)
  }

  /** No half-word belongs to two slots, or to two parts of one slot. */
  lemma SlotsDisjoint(l: Layout, i: nat, k: nat, h: int)
    requires l.Valid() && i < l.Count() && k < l.Count()
    ensures i != k ==> !(Owned(l, i, h) && Owned(l, k, h))
    ensures !(Guarded(l, i, h) && InMac(l, k, h))
    ensures InKey(l, i, h) ==> h != AlgoHalf(l, k)
  {
  }

  /** The fifty TKIP entries end exactly where the key index block begins, and no key byte is in either. */
  lemma TkipBelowKeyIndexBlock(l: Layout, i: nat, k: nat, j: nat)
    requires l.Valid() && l.Pairwise(i) && k < KEY_SLOTS && j < 7
    ensures TkipHalf(l, i, j) < AlgoHalf(l, k)
    ensures TkipHalf(l, l.Count() - 1, 7) == 0x20000 + KEYIDXBLOCK / 2
    ensures forall n: nat, b: nat :: n < KEY_SLOTS && b < 8 ==>
              KeyHalf(l, n, b) != TkipHalf(l, i, j) && KeyHalf(l, n, b) != AlgoHalf(l, k)
  {
  }

  // ---------------------------------------------------------------- what a slot holds

  /** Key material as the caller gave it; `tkip` is the phase 1 entry in half-words. */
  datatype Material = Material(algorithm: nat, key: seq<Octet>, mac: Option<seq<Octet>>, tkip: seq<Half>)

  ghost predicate ValidMac(mac: Option<seq<Octet>>) {
    mac.Some? ==> |mac.value| == 6
  }

  function Zeros(n: nat): (z: seq<Half>)
    ensures |z| == n && forall i :: 0 <= i < n ==> z[i] == 0
  {
    seq(n, i => 0)
  }

  function Padded(key: seq<Octet>): (p: seq<Octet>)
    requires |key| <= KEYSIZE
    ensures |p| == KEYSIZE && p[..|key|] == key && forall i :: |key| <= i < KEYSIZE ==> p[i] == 0
  {
    key + seq(KEYSIZE - |key|, i => 0)
  }

  /** The phase 1 entry a fresh key gets: all zero, but an iv32 that never matches for TKIP. */
  function FreshTkip(algorithm: nat): (t: seq<Half>)
    ensures |t| == 7
  {
    if algorithm == ALGO_TKIP then [0, 0, 0, 0, 0, 0xFFFF, 0xFFFF] else Zeros(7)
  }

  const CLEARED := Material(ALGO_NONE, Padded([]), None, Zeros(7))

  /** Two bytes as a half-word, least significant first. */
  function Join(lo: int, hi: int): Half
    requires 0 <= lo < 256 && 0 <= hi < 256
  {
    lo + 256 * hi
  }

  /** Half-word `j` of a MAC, zero for no MAC. */
  function MacWord(mac: Option<seq<Octet>>, j: nat): Half
    requires mac.Some? ==> |mac.value| == 6
    requires j < 3
  {
    if mac.None? then 0 else Join(mac.value[2 * j], mac.value[2 * j + 1])
  }

  ghost predicate HoldsAlgo(l: Layout, m: Memory, i: nat, algorithm: nat)
    requires l.Valid() && i < l.Count()
  {
    Get(m, AlgoHalf(l, i)) == l.kidx[i] * 16 + algorithm
  }

  ghost predicate HoldsKey(l: Layout, m: Memory, i: nat, key: seq<Octet>, upto: nat)
    requires l.Valid() && i < l.Count() && |key| == KEYSIZE && upto <= 8
  {
    forall j :: 0 <= j < upto ==> Get(m, KeyHalf(l, i, j)) == Join(key[2 * j], key[2 * j + 1])
  }

  ghost predicate HoldsTkip(l: Layout, m: Memory, i: nat, tkip: seq<Half>)
    requires |tkip| == 7
  {
    forall j :: 0 <= j < 7 ==> Get(m, TkipHalf(l, i, j)) == tkip[j]
  }

  ghost predicate HoldsMac(l: Layout, m: Memory, i: nat, mac: Option<seq<Octet>>)
    requires ValidMac(mac)
  {
    forall j :: 0 <= j < 3 ==> Get(m, MacHalf(l, i, j)) == MacWord(mac, j)
  }

  ghost predicate ValidMaterial(k: Material) {
    |k.key| == KEYSIZE && ValidMac(k.mac) && |k.tkip| == 7
  }

  /** The memory of slot `i` is exactly `k`. */
  ghost predicate Holds(l: Layout, m: Memory, i: nat, k: Material)
    requires l.Valid() && i < l.Count()
  {
    && ValidMaterial(k)
    && HoldsAlgo(l, m, i, k.algorithm)
    && HoldsKey(l, m, i, k.key, 8)
    && (l.Pairwise(i) ==> HoldsMac(l, m, i, k.mac))
    && (l.Pairwise(i) && l.hwtkip ==> HoldsTkip(l, m, i, k.tkip))
  }

  ghost predicate MacZero(l: Layout, m: Memory, i: nat) {
    HoldsMac(l, m, i, None)
  }

  /** Contents that agree on a slot's half-words hold the same material. */
  lemma HoldsFrame(l: Layout, m: Memory, m': Memory, i: nat, k: Material)
    requires l.Valid() && i < l.Count() && Holds(l, m, i, k)
    requires forall h :: Owned(l, i, h) ==> Get(m', h) == Get(m, h)
    ensures Holds(l, m', i, k)
  {
    assert Owned(l, i, AlgoHalf(l, i));
    forall j | 0 <= j < 8 ensures Get(m', KeyHalf(l, i, j)) == Get(m, KeyHalf(l, i, j)) {
      assert Owned(l, i, KeyHalf(l, i, j));
    }
    if l.Pairwise(i) {
      forall j | 0 <= j < 3 ensures Get(m', MacHalf(l, i, j)) == Get(m, MacHalf(l, i, j)) {
        assert Owned(l, i, MacHalf(l, i, j));
      }
      forall j | 0 <= j < 7 ensures Get(m', TkipHalf(l, i, j)) == Get(m, TkipHalf(l, i, j)) {
        assert Owned(l, i, TkipHalf(l, i, j));
      }
    }
  }

  // ---------------------------------------------------------------- the same in bytes and loads

  /** Sixteen bytes of the key table: the key, then zeros. */
  ghost predicate ReadsKey(l: Layout, m: Memory, i: nat, key: seq<Octet>) {
    forall b :: 0 <= b < 16 ==> KeyByte(l, m, i, b) == if b < |key| then key[b] else 0
  }

  function KeyByte(l: Layout, m: Memory, i: nat, b: nat): nat {
    Byte(m, l.ktp + 16 * i + b)
  }

  /** The word of the key index block that ties the slot to its algorithm. */
  ghost predicate ReadsAlgo(l: Layout, m: Memory, i: nat, algorithm: nat)
    requires i < |l.kidx|
  {
    Load16(m, SHARED, 0x5D4 + 2 * l.kidx[i]) == 16 * l.kidx[i] + algorithm
  }

  /** The position of a pairwise slot among the fifty. */
  function Position(l: Layout, i: nat): int {
    if l.newApi then i - 4 else i - 8
  }

  /** The receive match address: six bytes as a word and a half-word, least significant first; zeros for none. */
  ghost predicate ReadsMac(l: Layout, m: Memory, i: nat, mac: Option<seq<Octet>>)
    requires ValidMac(mac) && Position(l, i) >= 0
  {
    var a: seq<int> := if mac.Some? then mac.value else [0, 0, 0, 0, 0, 0];
    && Load32(m, RCMTA, 2 * Position(l, i)) == a[0] + 0x100 * a[1] + 0x1_0000 * a[2] + 0x100_0000 * a[3]
    && Load16(m, RCMTA, 2 * Position(l, i) + 1) == a[4] + 0x100 * a[5]
  }

  /** The seven half-words of a phase 1 entry. */
  ghost predicate ReadsTkip(l: Layout, m: Memory, i: nat, tkip: seq<Half>)
    requires |tkip| == 7 && Position(l, i) >= 0
  {
    forall j :: 0 <= j < 7 ==> Load16(m, SHARED, 0x318 + 14 * Position(l, i) + 2 * j) == tkip[j]
  }

  /** What the device reads of a slot that has just been written. */
  ghost predicate Reads(l: Layout, m: Memory, i: nat, algorithm: nat, key: seq<Octet>, mac: Option<seq<Octet>>)
    requires i < |l.kidx| && ValidMac(mac)
  {
    && ReadsAlgo(l, m, i, algorithm) && ReadsKey(l, m, i, key)
    && (l.Pairwise(i) ==> Position(l, i) >= 0 && ReadsMac(l, m, i, mac))
    && (l.Pairwise(i) && l.hwtkip ==>
          ReadsTkip(l, m, i, if algorithm == 2 then [0, 0, 0, 0, 0, 0xFFFF, 0xFFFF] else [0, 0, 0, 0, 0, 0, 0]))
  }

  /** A half-word of the key table holds two bytes, the first of them below. */
  lemma PairReads(l: Layout, m: Memory, i: nat, j: nat, lo: Octet, hi: Octet)
    requires l.ktp % 2 == 0 && Get(m, KeyHalf(l, i, j)) == Join(lo, hi)
    ensures Byte(m, l.ktp + 16 * i + 2 * j) == lo && Byte(m, l.ktp + 16 * i + 2 * j + 1) == hi
  {
    hide Byte, Join;
    var h := l.ktp / 2 + 8 * i + j;
    assert l.ktp + 16 * i + 2 * j == 2 * h;
    HalfReads(m, h, lo, hi);
  }

  lemma HalfReads(m: Memory, h: nat, lo: Octet, hi: Octet)
    requires Get(m, 2 * Control(SHARED, 0) + h) == Join(lo, hi)
    ensures Byte(m, 2 * h) == lo && Byte(m, 2 * h + 1) == hi
  {
    assert 2 * h / 2 == h && (2 * h + 1) / 2 == h && 2 * h % 2 == 0 && (2 * h + 1) % 2 == 1;
    LowAndHigh(lo, hi);
  }

  lemma LowAndHigh(lo: Octet, hi: Octet)
    ensures Join(lo, hi) % 256 == lo && Join(lo, hi) / 256 == hi
  {
  }

  lemma ByteReads(l: Layout, m: Memory, i: nat, p: seq<Octet>, b: nat)
    requires l.Valid() && i < l.Count() && |p| == KEYSIZE && b < 16 && HoldsKey(l, m, i, p, 8)
    ensures KeyByte(l, m, i, b) == p[b]
  {
    var j := b / 2;
    assert Get(m, KeyHalf(l, i, j)) == Join(p[2 * j], p[2 * j + 1]);
    hide HoldsKey, Byte, Join, KeyHalf;
    PairReads(l, m, i, j, p[2 * j], p[2 * j + 1]);
    assert l.ktp + 16 * i + b == l.ktp + 16 * i + 2 * j || l.ktp + 16 * i + b == l.ktp + 16 * i + 2 * j + 1;
  }

  lemma KeyReads(l: Layout, m: Memory, i: nat, key: seq<Octet>)
    requires l.Valid() && i < l.Count() && |key| <= KEYSIZE && HoldsKey(l, m, i, Padded(key), 8)
    ensures ReadsKey(l, m, i, key)
  {
    forall b | 0 <= b < 16 ensures KeyByte(l, m, i, b) == if b < |key| then key[b] else 0 {
      hide KeyByte, HoldsKey, Padded;
      ByteReads(l, m, i, Padded(key), b);
      assert Padded(key)[b] == if b < |key| then Padded(key)[..|key|][b] else 0;
    }
  }

  lemma MacReads(l: Layout, m: Memory, i: nat, mac: Option<seq<Octet>>)
    requires l.Pairwise(i) && ValidMac(mac) && HoldsMac(l, m, i, mac)
    ensures Position(l, i) >= 0 && ReadsMac(l, m, i, mac)
  {
    assert MacHalf(l, i, 0) == HalfAt(RCMTA, 2 * Position(l, i)) && MacHalf(l, i, 1) == MacHalf(l, i, 0) + 1;
    assert MacHalf(l, i, 2) == HalfAt(RCMTA, 2 * Position(l, i) + 1);
    assert Get(m, MacHalf(l, i, 0)) == MacWord(mac, 0) && Get(m, MacHalf(l, i, 1)) == MacWord(mac, 1);
    assert Get(m, MacHalf(l, i, 2)) == MacWord(mac, 2);
  }

  lemma TkipReads(l: Layout, m: Memory, i: nat, tkip: seq<Half>)
    requires l.Pairwise(i) && |tkip| == 7 && HoldsTkip(l, m, i, tkip)
    ensures Position(l, i) >= 0 && ReadsTkip(l, m, i, tkip)
  {
    forall j | 0 <= j < 7 ensures Load16(m, SHARED, 0x318 + 14 * Position(l, i) + 2 * j) == tkip[j] {
      HalfOfLanding(0x318 + 14 * Position(l, i) + 2 * j);
      assert Get(m, TkipHalf(l, i, j)) == tkip[j];
    }
  }

  lemma SlotReads(l: Layout, m: Memory, i: nat, algorithm: nat, key: seq<Octet>, mac: Option<seq<Octet>>)
    requires l.Valid() && i < l.Count() && |key| <= KEYSIZE && ValidMac(mac)
    requires Holds(l, m, i, Material(algorithm, Padded(key), mac, FreshTkip(algorithm)))
    ensures Reads(l, m, i, algorithm, key, mac)
  {
    KeyReads(l, m, i, key);
    HalfOfLanding(0x5D4 + 2 * l.kidx[i]);
    if l.Pairwise(i) {
      MacReads(l, m, i, mac);
      if l.hwtkip {
        TkipReads(l, m, i, FreshTkip(algorithm));
        assert Zeros(7) == [0, 0, 0, 0, 0, 0, 0];
      }
    }
  }

  // ---------------------------------------------------------------- the receive match race

  /** From one memory state to the next, a pairwise slot changes only while its MAC is zero. */
  ghost predicate StepOk(l: Layout, m: Memory, m': Memory)
    requires l.Valid()
  {
    forall i: nat, h: int ::
      l.Pairwise(i) && Guarded(l, i, h) && Get(m, h) != Get(m', h)
      ==> MacZero(l, m, i) && MacZero(l, m', i)
  }

  ghost predicate HistoryOk(l: Layout, history: seq<Memory>)
    requires l.Valid()
  {
    forall n :: 0 <= n < |history| - 1 ==> StepOk(l, history[n], history[n + 1])
  }

  /** A store inside the guarded part of a slot whose MAC is zero is harmless. */
  lemma GuardedStore(l: Layout, m: Memory, i: nat, h: int, v: Half)
    requires l.Valid() && i < l.Count() && Guarded(l, i, h)
    requires l.Pairwise(i) ==> MacZero(l, m, i)
    ensures StepOk(l, m, m[h := v])
    ensures l.Pairwise(i) ==> MacZero(l, m[h := v], i)
  {
    forall k: nat, g: int | l.Pairwise(k) && Guarded(l, k, g) && Get(m, g) != Get(m[h := v], g)
      ensures MacZero(l, m, k) && MacZero(l, m[h := v], k)
    {
      SlotsDisjoint(l, i, k, h);
      assert g == h;
      assert k == i;
      MacKept(l, m, i, h, v);
    }
    if l.Pairwise(i) { MacKept(l, m, i, h, v); }
  }

  lemma MacKept(l: Layout, m: Memory, i: nat, h: int, v: Half)
    requires l.Valid() && l.Pairwise(i) && Guarded(l, i, h) && MacZero(l, m, i)
    ensures MacZero(l, m[h := v], i)
  {
    forall j | 0 <= j < 3 ensures Get(m[h := v], MacHalf(l, i, j)) == Get(m, MacHalf(l, i, j)) {
      SlotsDisjoint(l, i, i, h);
      assert InMac(l, i, MacHalf(l, i, j));
    }
  }

  /** A store of a MAC half-word never touches a guarded one. */
  lemma MacStore(l: Layout, m: Memory, i: nat, h: int, v: Half)
    requires l.Valid() && l.Pairwise(i) && InMac(l, i, h)
    ensures StepOk(l, m, m[h := v])
  {
    forall k: nat, g: int | l.Pairwise(k) && Guarded(l, k, g) ensures g != h {
      SlotsDisjoint(l, k, i, g);
    }
  }

  lemma Extends(l: Layout, history: seq<Memory>, m: Memory)
    requires l.Valid() && |history| > 0 && HistoryOk(l, history)
    requires StepOk(l, history[|history| - 1], m)
    ensures HistoryOk(l, history + [m])
  {
    var h' := history + [m];
    forall n | 0 <= n < |h'| - 1 ensures StepOk(l, h'[n], h'[n + 1]) {
      if n == |history| - 1 {
        assert h'[n] == history[n] && h'[n + 1] == m;
      } else {
        assert h'[n] == history[n] && h'[n + 1] == history[n + 1];
      }
    }
  }

  // ---------------------------------------------------------------- the simple slot map

  /** Which material each slot holds (`None`: cleared) and which live key owns it. */
  datatype SlotMap = SlotMap(mat: seq<Material>, conf: seq<Option<nat>>)

  datatype KeyResult = Stored(index: nat) | NoSpace | Invalid

  ghost predicate ValidMap(l: Layout, s: SlotMap) {
    && |s.mat| == KEY_SLOTS && |s.conf| == KEY_SLOTS
    && forall i :: 0 <= i < KEY_SLOTS ==> ValidMaterial(s.mat[i])
  }

  /** The first slot at or after `i` that no live key owns, or the end. */
  function FirstFree(conf: seq<Option<nat>>, i: nat, end: nat): (r: nat)
    requires i <= end <= |conf|
    ensures i <= r <= end
    ensures r < end ==> conf[r].None?
    ensures forall k :: i <= k < r ==> conf[k].Some?
    decreases end - i
  {
    if i == end || conf[i].None? then i else FirstFree(conf, i + 1, end)
  }

  function Put(l: Layout, s: SlotMap, i: nat, algorithm: nat, key: seq<Octet>, mac: Option<seq<Octet>>): SlotMap
    requires i < |s.mat| && |key| <= KEYSIZE
  {
    s.(mat := s.mat[i := Material(algorithm, Padded(key), mac, FreshTkip(algorithm))])
  }

  function PutBoth(l: Layout, s: SlotMap, i: nat, algorithm: nat, key: seq<Octet>, mac: Option<seq<Octet>>): SlotMap
    requires i < KEY_SLOTS == |s.mat| && |key| <= KEYSIZE
  {
    var s1 := Put(l, s, i, algorithm, key, mac);
    if l.Mirrored(i) then Put(l, s1, i + 4, algorithm, key, None) else s1
  }

  /** A temporal key of 256 bits is cut to its first half; a longer key is refused. */
  function UsedKey(algorithm: nat, key: seq<Octet>): seq<Octet> {
    if algorithm == ALGO_TKIP && |key| == 32 then key[..16] else key
  }

  function WriteKey(l: Layout, s: SlotMap, index: int, algorithm: nat, key: seq<Octet>,
                    mac: Option<seq<Octet>>, conf: nat): (r: (SlotMap, KeyResult))
    requires |s.mat| == |s.conf| == KEY_SLOTS && index <= 3
  {
    var k := UsedKey(algorithm, key);
    if |k| > KEYSIZE then (s, Invalid)
    else
      var i := if index < 0 then FirstFree(s.conf, l.Start(), l.Count()) else index;
      if i == l.Count() then (s, NoSpace)
      else (PutBoth(l, s, i, algorithm, k, mac).(conf := s.conf[i := Some(conf)]), Stored(i))
  }

  function ClearKey(l: Layout, s: SlotMap, i: nat): SlotMap
    requires |s.mat| == |s.conf| == KEY_SLOTS && i < KEY_SLOTS
  {
    PutBoth(l, s, i, ALGO_NONE, [], None).(conf := s.conf[i := None])
  }

  /** A phase 1 update replaces the entry, and the MAC by the station's address (zero without a station). */
  function UpdateTkip(l: Layout, s: SlotMap, i: nat, tkip: seq<Half>, sta: Option<seq<Octet>>): SlotMap
    requires |s.mat| == KEY_SLOTS && i < KEY_SLOTS
  {
    if l.hwtkip then s.(mat := s.mat[i := s.mat[i].(tkip := tkip, mac := sta)]) else s
  }

  // ---------------------------------------------------------------- runs of the slot map

  datatype Op =
    | Write(index: int, algorithm: nat, key: seq<Octet>, mac: Option<seq<Octet>>, conf: nat)
    | Clear(slot: nat)
    | Phase1(slot: nat, tkip: seq<Half>, sta: Option<seq<Octet>>)

  /**
  What the callers respect: group indices 0..3, pairwise indices negative, a new
  cookie each time; a phase 1 update is for a live pairwise key.
  */
  ghost predicate Allowed(l: Layout, s: SlotMap, op: Op)
    requires |s.conf| == KEY_SLOTS
  {
    match op
    case Write(index, algorithm, key, mac, conf) =>
      && index <= 3 && ValidMac(mac) && Some(conf) !in s.conf
      && (algorithm == ALGO_TKIP ==> index < 0)
    case Clear(slot) => slot < l.Count()
    case Phase1(slot, tkip, sta) => l.Pairwise(slot) && s.conf[slot].Some? && |tkip| == 7 && ValidMac(sta)
  }

  function Apply(l: Layout, s: SlotMap, op: Op): SlotMap
    requires |s.mat| == |s.conf| == KEY_SLOTS
    requires op.Write? ==> op.index <= 3
    requires !op.Write? ==> op.slot < KEY_SLOTS
  {
    match op
    case Write(index, algorithm, key, mac, conf) => WriteKey(l, s, index, algorithm, key, mac, conf).0
    case Clear(slot) => ClearKey(l, s, slot)
    case Phase1(slot, tkip, sta) => UpdateTkip(l, s, slot, tkip, sta)
  }

  /** Distinct slots have distinct owners, and a slot without a live key is cleared. */
  ghost predicate Tidy(l: Layout, s: SlotMap) {
    && ValidMap(l, s)
    && (forall i, k :: 0 <= i < k < KEY_SLOTS && s.conf[i].Some? ==> s.conf[i] != s.conf[k])
    && (forall i :: l.Start() <= i < l.Count() && s.conf[i].None? ==> s.mat[i] == CLEARED)
    && (!l.newApi ==> forall i :: 4 <= i < 8 ==> s.conf[i].None? && s.mat[i] == s.mat[i - 4].(mac := None))
  }

  /** Old firmware: nobody clears a default receive slot on its own. */
  ghost predicate Respectful(l: Layout, op: Op) {
    op.Clear? && !l.newApi ==> !(4 <= op.slot < 8)
  }

  lemma ApplyTidy(l: Layout, s: SlotMap, op: Op)
    requires Tidy(l, s) && Allowed(l, s, op) && Respectful(l, op)
    ensures Tidy(l, Apply(l, s, op))
  {
    match op {
      case Write(index, algorithm, key, mac, conf) =>
        forall i | 0 <= i < KEY_SLOTS ensures s.conf[i] != Some(conf) {
          assert s.conf[i] in s.conf;
        }
      case Clear(slot) =>
      case Phase1(slot, tkip, sta) =>
    }
  }

  ghost predicate AllowedRun(l: Layout, s: SlotMap, ops: seq<Op>)
    requires Tidy(l, s)
    decreases |ops|
  {
    ops == [] || (
      && Allowed(l, s, ops[0]) && Respectful(l, ops[0])
      && (ApplyTidy(l, s, ops[0]); AllowedRun(l, Apply(l, s, ops[0]), ops[1..])))
  }

  /** Over any run, live keys sit in distinct slots and every free pairwise slot is cleared. */
  ghost function Run(l: Layout, s: SlotMap, ops: seq<Op>): (r: SlotMap)
    requires Tidy(l, s) && AllowedRun(l, s, ops)
    ensures Tidy(l, r)
    decreases |ops|
  {
    if ops == [] then s else ApplyTidy(l, s, ops[0]); Run(l, Apply(l, s, ops[0]), ops[1..])
  }

  /** Material after the phase 1 updates of a run that are meant for its slot, and nothing else of the run. */
  function Updated(l: Layout, m: Material, ops: seq<Op>, i: nat): (r: Material)
    ensures r.key == m.key && r.algorithm == m.algorithm
    decreases |ops|
  {
    if ops == [] then m
    else
      var op := ops[0];
      Updated(l, if op.Phase1? && op.slot == i && l.hwtkip then m.(tkip := op.tkip, mac := op.sta) else m, ops[1..], i)
  }

  /**
  For as long as a key is live its slot holds what its owner wrote, key bytes and
  algorithm for good, phase 1 entry and MAC as last updated for it; whatever else
  happens.
  */
  lemma {:induction false} MaterialSurvives(l: Layout, s: SlotMap, ops: seq<Op>, i: nat)
    requires Tidy(l, s) && AllowedRun(l, s, ops) && l.Pairwise(i) && s.conf[i].Some?
    requires forall n :: 0 <= n < |ops| ==> !(ops[n].Clear? && ops[n].slot == i)
    ensures Run(l, s, ops).mat[i] == Updated(l, s.mat[i], ops, i) && Run(l, s, ops).conf[i] == s.conf[i]
    ensures Run(l, s, ops).mat[i].key == s.mat[i].key && Run(l, s, ops).mat[i].algorithm == s.mat[i].algorithm
    decreases |ops|
  {
    if ops != [] {
      assert !(ops[0].Clear? && ops[0].slot == i);
      ApplyTidy(l, s, ops[0]);
      MaterialSurvives(l, Apply(l, s, ops[0]), ops[1..], i);
    }
  }

  /** A pairwise write takes the first free slot, and reports no space exactly when all fifty are live. */
  lemma FirstFit(l: Layout, s: SlotMap, algorithm: nat, key: seq<Octet>, mac: Option<seq<Octet>>, conf: nat)
    requires Tidy(l, s)
    ensures var (s', r) := WriteKey(l, s, -1, algorithm, key, mac, conf);
            && (r == Invalid <==> |UsedKey(algorithm, key)| > KEYSIZE)
            && (r == NoSpace <==> |UsedKey(algorithm, key)| <= KEYSIZE &&
                                  forall i :: l.Start() <= i < l.Count() ==> s.conf[i].Some?)
            && (r.Stored? ==>
                  && l.Pairwise(r.index) && s.conf[r.index].None?
                  && (forall k :: l.Start() <= k < r.index ==> s.conf[k].Some?)
                  && s'.conf == s.conf[r.index := Some(conf)]
                  && s'.mat == s.mat[r.index := Material(algorithm, Padded(UsedKey(algorithm, key)), mac, FreshTkip(algorithm))])
            && (!r.Stored? ==> s' == s)
  {
  }

  // ---------------------------------------------------------------- the driver's key memory

  /** Slot by slot, the memory is what the slot map says. */
  ghost predicate Represents(l: Layout, m: Memory, mat: seq<Material>)
    requires l.Valid()
  {
    |mat| == KEY_SLOTS && forall i :: 0 <= i < l.Count() ==> Holds(l, m, i, mat[i])
  }

  /** `m'` differs from `m` only inside slot `i`. */
  ghost predicate OnlySlot(l: Layout, m: Memory, m': Memory, i: nat)
    requires i < |l.kidx|
  {
    forall h :: !Owned(l, i, h) ==> Get(m', h) == Get(m, h)
  }

  /** Rewriting one slot moves the representation by one update. */
  lemma RepresentsUpdate(l: Layout, m: Memory, m': Memory, mat: seq<Material>, i: nat, k: Material)
    requires l.Valid() && Represents(l, m, mat) && i < l.Count()
    requires OnlySlot(l, m, m', i) && Holds(l, m', i, k)
    ensures Represents(l, m', mat[i := k])
  {
    var mat' := mat[i := k];
    forall n | 0 <= n < l.Count() ensures Holds(l, m', n, mat'[n]) {
      if n != i {
        forall h | Owned(l, n, h) ensures Get(m', h) == Get(m, h) {
          SlotsDisjoint(l, i, n, h);
        }
        HoldsFrame(l, m, m', n, mat[n]);
      }
    }
  }

  /** The first `n` slots are cleared. */
  ghost predicate ClearedUpTo(l: Layout, m: Memory, n: nat)
    requires l.Valid() && n <= l.Count()
  {
    forall i: nat :: i < n ==> Holds(l, m, i, CLEARED)
  }

  /** `m'` differs from `m` only inside key slots. */
  ghost predicate OnlyKeys(l: Layout, m: Memory, m': Memory)
    requires l.Valid()
  {
    forall h :: Get(m', h) != Get(m, h) ==> exists i: nat :: i < l.Count() && Owned(l, i, h)
  }

  class KeyStore {
    const l: Layout
    const shm: Shm
    var keyconf: seq<Option<nat>>
    /** Every state the shared memory went through, oldest first. */
    ghost var history: seq<Memory>

    ghost predicate Valid()
      reads this, shm
    {
      && l.Valid()
      && |keyconf| == KEY_SLOTS
      && |history| > 0 && history[|history| - 1] == shm.memory
      && HistoryOk(l, history)
    }

    /** Before the keys are cleared the memory holds anything at all. */
    constructor (layout: Layout, shm: Shm)
      requires layout.Valid()
      ensures Valid() && this.l == layout && this.shm == shm
      ensures keyconf == seq(KEY_SLOTS, i => None)
      ensures history == [shm.memory]
    {
      l := layout;
      this.shm := shm;
      keyconf := seq(KEY_SLOTS, i => None);
      history := [shm.memory];
    }

    method Put16(routing: nat, offset: nat, value: Half)
      requires Valid()
      requires StepOk(l, shm.memory, Store16(shm.memory, routing, offset, value))
      modifies `history, shm
      ensures Valid()
      ensures shm.memory == Store16(old(shm.memory), routing, offset, value)
      ensures old(history) <= history
    {
      shm.Write16(routing, offset, value);
      Extends(l, history, shm.memory);
      history := history + [shm.memory];
    }

    method WriteAlgo(index: nat, algorithm: nat)
      requires Valid() && index < l.Count() && algorithm < 16
      requires l.Pairwise(index) ==> MacZero(l, shm.memory, index)
      modifies `history, shm
      ensures Valid() && old(history) <= history
      ensures shm.memory == old(shm.memory)[AlgoHalf(l, index) := l.kidx[index] * 16 + algorithm]
      ensures l.Pairwise(index) ==> MacZero(l, shm.memory, index)
    {
      var kidx := l.kidx[index];
      AlgoAddress(l, index);
      GuardedStore(l, shm.memory, index, AlgoHalf(l, index), kidx * 16 + algorithm);
      Put16(SHARED, KEYIDXBLOCK + kidx * 2, kidx * 16 + algorithm);
    }

    method WriteKeyPair(index: nat, j: nat, lo: Octet, hi: Octet)
      requires Valid() && index < l.Count() && j < 8
      requires l.Pairwise(index) ==> MacZero(l, shm.memory, index)
      modifies `history, shm
      ensures Valid() && old(history) <= history
      ensures shm.memory == old(shm.memory)[KeyHalf(l, index, j) := Join(lo, hi)]
      ensures l.Pairwise(index) ==> MacZero(l, shm.memory, index)
    {
      KeyAddress(l, index, j);
      GuardedStore(l, shm.memory, index, KeyHalf(l, index, j), Join(lo, hi));
      Put16(SHARED, l.ktp + index * KEYSIZE + 2 * j, Join(lo, hi));
    }

    /** key_write: the algorithm word, then the sixteen key bytes. */
    method WriteKeyBytes(index: nat, algorithm: nat, key: seq<Octet>)
      requires Valid() && index < l.Count() && algorithm < 16 && |key| == KEYSIZE
      requires l.Pairwise(index) ==> MacZero(l, shm.memory, index)
      modifies `history, shm
      ensures Valid() && old(history) <= history
      ensures HoldsAlgo(l, shm.memory, index, algorithm)
      ensures HoldsKey(l, shm.memory, index, key, 8)
      ensures forall h :: h != AlgoHalf(l, index) && !InKey(l, index, h) ==>
                Get(shm.memory, h) == Get(old(shm.memory), h)
    {
      WriteAlgo(index, algorithm);
      Parts(l, index);
      var j := 0;
      while j < 8
        invariant 0 <= j <= 8
        invariant Valid() && old(history) <= history
        invariant l.Pairwise(index) ==> MacZero(l, shm.memory, index)
        invariant HoldsAlgo(l, shm.memory, index, algorithm)
        invariant HoldsKey(l, shm.memory, index, key, j)
        invariant forall h :: h != AlgoHalf(l, index) && !InKey(l, index, h) ==>
                    Get(shm.memory, h) == Get(old(shm.memory), h)
      {
        WriteKeyPair(index, j, key[2 * j], key[2 * j + 1]);
        j := j + 1;
      }
    }

    /** keymac_write: four bytes as a word, two as the half-word after it; no address writes zeros. */
    method WriteMac(index: nat, mac: Option<seq<Octet>>)
      requires Valid() && l.Pairwise(index) && ValidMac(mac)
      modifies `history, shm
      ensures Valid() && old(history) <= history
      ensures HoldsMac(l, shm.memory, index, mac)
      ensures Position(l, index) >= 0 && ReadsMac(l, shm.memory, index, mac)
      ensures forall h :: !InMac(l, index, h) ==> Get(shm.memory, h) == Get(old(shm.memory), h)
    {
      var slot := index - l.Start();
      var low, high := MacWord(mac, 0), MacWord(mac, 1);
      MacAddress(l, index);
      PutMacWord(index, low, high);
      MacStore(l, shm.memory, index, MacHalf(l, index, 2), MacWord(mac, 2));
      Put16(RCMTA, slot * 2 + 1, MacWord(mac, 2));
      MacReads(l, shm.memory, index, mac);
    }

    /** The first two half-words of the MAC, in one store. */
    method PutMacWord(index: nat, low: Half, high: Half)
      requires Valid() && l.Pairwise(index)
      modifies `history, shm
      ensures Valid() && old(history) <= history
      ensures shm.memory == old(shm.memory)[MacHalf(l, index, 0) := low][MacHalf(l, index, 1) := high]
    {
      var slot := index - l.Start();
      var word: nat := low as int + 0x10000 * (high as int);
      MacAddress(l, index);
      ghost var middle := shm.memory[MacHalf(l, index, 0) := low];
      shm.Write32(RCMTA, slot * 2, word);
      assert shm.memory == middle[MacHalf(l, index, 1) := high];
      StepTwice(l, history[|history| - 1], middle, shm.memory, index);
      Extends(l, history, shm.memory);
      history := history + [shm.memory];
    }

    method PutTkip(index: nat, j: nat, offset: nat, value: Half)
      requires Valid() && l.Pairwise(index) && l.hwtkip && j < 7 && MacZero(l, shm.memory, index)
      requires offset == TKIPTSCTTAK + (index - l.Start()) * 14 + 2 * j
      modifies `history, shm
      ensures Valid() && old(history) <= history && MacZero(l, shm.memory, index)
      ensures shm.memory == old(shm.memory)[TkipHalf(l, index, j) := value]
    {
      TkipAddress(l, index, j);
      GuardedStore(l, shm.memory, index, TkipHalf(l, index, j), value);
      Put16(SHARED, offset, value);
    }

    /** rx_tkip_phase1_write: five phase 1 words and the two halves of iv32. */
    method WriteTkip(index: nat, tkip: seq<Half>)
      requires Valid() && l.Pairwise(index) && |tkip| == 7 && MacZero(l, shm.memory, index)
      modifies `history, shm
      ensures Valid() && old(history) <= history
      ensures l.hwtkip ==> HoldsTkip(l, shm.memory, index, tkip)
      ensures forall h :: (l.hwtkip ==> !InTkip(l, index, h)) ==>
                Get(shm.memory, h) == Get(old(shm.memory), h)
    {
      if !l.hwtkip { return; }
      var offset := TKIPTSCTTAK + (index - l.Start()) * 14;
      var j := 0;
      while j < 7
        invariant 0 <= j <= 7
        invariant Valid() && old(history) <= history && MacZero(l, shm.memory, index)
        invariant forall n :: 0 <= n < j ==> Get(shm.memory, TkipHalf(l, index, n)) == tkip[n]
        invariant forall h :: !InTkip(l, index, h) ==>
                    Get(shm.memory, h) == Get(old(shm.memory), h)
      {
        PutTkip(index, j, offset + 2 * j, tkip[j]);
        j := j + 1;
      }
    }

    /** do_key_write: zero the MAC, write the TKIP entry and the key, then the MAC. */
    method DoKeyWrite(index: nat, algorithm: nat, key: seq<Octet>, mac: Option<seq<Octet>>,
                      ghost mat: seq<Material>)
      requires Valid() && index < l.Count() && algorithm < 16 && |key| <= KEYSIZE && ValidMac(mac)
      requires algorithm == ALGO_TKIP ==> l.Pairwise(index)
      modifies `history, shm
      ensures Valid() && old(history) <= history
      ensures OnlySlot(l, old(shm.memory), shm.memory, index)
      ensures Holds(l, shm.memory, index, Material(algorithm, Padded(key), mac, FreshTkip(algorithm)))
      ensures Reads(l, shm.memory, index, algorithm, key, mac)
      ensures old(Represents(l, shm.memory, mat)) ==>
                Represents(l, shm.memory, mat[index := Material(algorithm, Padded(key), mac, FreshTkip(algorithm))])
    {
      var buf := Padded(key);
      if l.Start() <= index {
        WriteMac(index, None);
        WriteTkip(index, FreshTkip(algorithm));
        Parts(l, index);
      }
      label beforeKey:
      assert l.Pairwise(index) ==> MacZero(l, shm.memory, index);
      WriteKeyBytes(index, algorithm, buf);
      Parts(l, index);
      assert l.Pairwise(index) && l.hwtkip ==> HoldsTkip(l, shm.memory, index, FreshTkip(algorithm));
      if l.Start() <= index {
        WriteMac(index, mac);
      }
      ghost var k := Material(algorithm, buf, mac, FreshTkip(algorithm));
      assert Holds(l, shm.memory, index, k);
      SlotReads(l, shm.memory, index, algorithm, key, mac);
      if old(Represents(l, shm.memory, mat)) {
        RepresentsUpdate(l, old(shm.memory), shm.memory, mat, index, k);
      }
    }

    /** A slot, and the default receive slot that goes with it. */
    method WriteBoth(slot: nat, algorithm: nat, key: seq<Octet>, mac: Option<seq<Octet>>, ghost s: SlotMap)
      requires Valid() && slot < l.Count() && (l.Mirrored(slot) ==> slot + 4 < l.Count())
      requires algorithm < 16 && |key| <= KEYSIZE && ValidMac(mac)
      requires algorithm == ALGO_TKIP ==> l.Pairwise(slot) && !l.Mirrored(slot)
      requires Represents(l, shm.memory, s.mat)
      modifies `history, shm
      ensures Valid() && old(history) <= history
      ensures Represents(l, shm.memory, PutBoth(l, s, slot, algorithm, key, mac).mat)
    {
      hide Reads;
      DoKeyWrite(slot, algorithm, key, mac, s.mat);
      if slot <= 3 && !l.newApi {
        ghost var mat1 := Put(l, s, slot, algorithm, key, mac).mat;
        DoKeyWrite(slot + 4, algorithm, key, None, mat1);
      }
    }

    /** b43_key_write. */
    method KeyWrite(index: int, algorithm: nat, key: seq<Octet>, mac: Option<seq<Octet>>, conf: nat,
                    ghost s: SlotMap)
      returns (r: KeyResult)
      requires Valid() && index <= 3 && algorithm < 16 && ValidMac(mac)
      requires algorithm == ALGO_TKIP ==> index < 0
      requires Represents(l, shm.memory, s.mat) && s.conf == keyconf
      modifies this, shm
      ensures Valid() && old(history) <= history
      ensures var (s', r') := WriteKey(l, s, index, algorithm, key, mac, conf);
              Represents(l, shm.memory, s'.mat) && keyconf == s'.conf && r == r'
      ensures r == Invalid <==> |key| > 16 && !(algorithm == 2 && |key| == 32)
      ensures r.Stored? ==>
                && r.index < l.Count() && (index >= 0 ==> r.index == index)
                && Reads(l, shm.memory, r.index, algorithm, if |key| == 32 then key[..16] else key, mac)
    {
      var k := key;
      if algorithm == ALGO_TKIP && |key| == 32 { k := key[..16]; }
      if |k| > KEYSIZE { return Invalid; }
      var slot := index;
      if index < 0 {
        var i := l.Start();
        while i < l.Count() && keyconf[i].Some?
          invariant l.Start() <= i <= l.Count()
          invariant FirstFree(keyconf, l.Start(), l.Count()) == FirstFree(keyconf, i, l.Count())
        {
          i := i + 1;
        }
        if i == l.Count() { return NoSpace; }
        slot := i;
      }
      WriteBoth(slot, algorithm, k, mac, s);
      assert PutBoth(l, s, slot, algorithm, k, mac).mat[slot] == Material(algorithm, Padded(k), mac, FreshTkip(algorithm));
      SlotReads(l, shm.memory, slot, algorithm, k, mac);
      keyconf := keyconf[slot := Some(conf)];
      r := Stored(slot);
    }

    /** do_key_write with no algorithm and no key: the slot is cleared. */
    method ClearSlot(index: nat, ghost mat: seq<Material>)
      requires Valid() && index < l.Count() && |mat| == KEY_SLOTS
      modifies `history, shm
      ensures Valid() && old(history) <= history
      ensures old(Represents(l, shm.memory, mat)) ==> Represents(l, shm.memory, mat[index := CLEARED])
      ensures forall n: nat :: n <= l.Count() && ClearedUpTo(l, old(shm.memory), n) ==>
                ClearedUpTo(l, shm.memory, if n == index then n + 1 else n)
      ensures OnlyKeys(l, old(shm.memory), shm.memory)
    {
      DoKeyWrite(index, ALGO_NONE, [], None, mat);
      assert Material(ALGO_NONE, Padded([]), None, FreshTkip(ALGO_NONE)) == CLEARED;
      forall n: nat | n <= l.Count() && ClearedUpTo(l, old(shm.memory), n)
        ensures ClearedUpTo(l, shm.memory, if n == index then n + 1 else n)
      {
        ClearedOthers(l, old(shm.memory), shm.memory, index, n);
      }
    }

    /** b43_key_clear on a slot the firmware interface has. */
    method KeyClear(index: nat, ghost s: SlotMap)
      requires Valid() && index < l.Count()
      requires s.conf == keyconf && |s.mat| == KEY_SLOTS
      modifies this, shm
      ensures Valid() && old(history) <= history
      ensures old(Represents(l, shm.memory, s.mat)) ==> Represents(l, shm.memory, ClearKey(l, s, index).mat)
      ensures keyconf == ClearKey(l, s, index).conf
      ensures ClearedUpTo(l, old(shm.memory), index) ==> ClearedUpTo(l, shm.memory, index + 1)
      ensures OnlyKeys(l, old(shm.memory), shm.memory)
    {
      ClearSlot(index, s.mat);
      ghost var first := shm.memory;
      if index <= 3 && !l.newApi {
        ClearSlot(index + 4, s.mat[index := CLEARED]);
        OnlyKeysTwice(l, old(shm.memory), first, shm.memory);
      }
      keyconf := keyconf[index := None];
      ClearKeyMat(l, s, index);
    }

    /** b43_clear_keys: whatever the memory held, every slot ends cleared and nothing else moves. */
    method ClearKeys()
      requires Valid()
      modifies this, shm
      ensures Valid() && old(history) <= history
      ensures Represents(l, shm.memory, seq(KEY_SLOTS, i => CLEARED))
      ensures forall i :: 0 <= i < KEY_SLOTS ==> keyconf[i] == if i < l.Count() then None else old(keyconf[i])
      ensures OnlyKeys(l, old(shm.memory), shm.memory)
    {
      var i := 0;
      while i < l.Count()
        invariant 0 <= i <= l.Count()
        invariant Valid() && old(history) <= history
        invariant ClearedUpTo(l, shm.memory, i)
        invariant forall n :: 0 <= n < KEY_SLOTS ==> keyconf[n] == if n < i then None else old(keyconf[n])
        invariant OnlyKeys(l, old(shm.memory), shm.memory)
      {
        KeyClear(i, SlotMap(seq(KEY_SLOTS, n => CLEARED), keyconf));
        i := i + 1;
      }
    }

    /** The MAC zeroed, the phase 1 entry, the MAC of the station. */
    method ReplacePhase1(index: nat, tkip: seq<Half>, sta: Option<seq<Octet>>, ghost mat: seq<Material>)
      requires Valid() && l.Pairwise(index) && l.hwtkip && |tkip| == 7 && ValidMac(sta)
      requires Represents(l, shm.memory, mat)
      modifies `history, shm
      ensures Valid() && old(history) <= history
      ensures Represents(l, shm.memory, mat[index := mat[index].(tkip := tkip, mac := sta)])
      ensures Holds(l, shm.memory, index, mat[index].(tkip := tkip, mac := sta))
    {
      WriteMac(index, None);
      WriteTkip(index, tkip);
      Parts(l, index);
      assert MacZero(l, shm.memory, index) by {
        forall n | 0 <= n < 3 ensures Get(shm.memory, MacHalf(l, index, n)) == 0 {
          assert InMac(l, index, MacHalf(l, index, n));
        }
      }
      if sta.Some? {
        WriteMac(index, sta);
      }
      ghost var k := mat[index].(tkip := tkip, mac := sta);
      assert Holds(l, old(shm.memory), index, mat[index]);
      assert Holds(l, shm.memory, index, k);
      RepresentsUpdate(l, old(shm.memory), shm.memory, mat, index, k);
    }

    /** b43_op_update_tkip_key: the MAC stays zero unless the station is known. */
    method UpdateTkipKey(index: nat, phase1: Option<seq<Half>>, iv32: nat, sta: Option<seq<Octet>>,
                         ghost s: SlotMap)
      requires Valid() && l.Pairwise(index) && iv32 < 0x1_0000_0000 && ValidMac(sta)
      requires phase1.Some? ==> |phase1.value| == 5
      requires Represents(l, shm.memory, s.mat)
      modifies `history, shm
      ensures Valid() && old(history) <= history
      ensures var p := if phase1.Some? then phase1.value else Zeros(5);
              Represents(l, shm.memory,
                         UpdateTkip(l, s, index, p + [iv32 % 0x10000, iv32 / 0x10000], sta).mat)
      ensures l.hwtkip ==>
                && Position(l, index) >= 0 && ReadsMac(l, shm.memory, index, sta)
                && ReadsTkip(l, shm.memory, index,
                     (if phase1.Some? then phase1.value else [0, 0, 0, 0, 0]) + [iv32 % 0x1_0000, iv32 / 0x1_0000])
    {
      if !l.hwtkip { return; }
      var p := if phase1.Some? then phase1.value else Zeros(5);
      var tkip := p + [iv32 % 0x10000, iv32 / 0x10000];
      assert phase1.None? ==> p == [0, 0, 0, 0, 0];
      ReplacePhase1(index, tkip, sta, s.mat);
      MacReads(l, shm.memory, index, sta);
      TkipReads(l, shm.memory, index, tkip);
    }
  }

  // ---------------------------------------------------------------- addresses and frames

  lemma AlgoAddress(l: Layout, i: nat)
    requires l.Valid() && i < l.Count()
    ensures HalfAt(SHARED, KEYIDXBLOCK + l.kidx[i] * 2) == AlgoHalf(l, i)
  {
    HalfOfLanding(KEYIDXBLOCK + l.kidx[i] * 2);
  }

  lemma KeyAddress(l: Layout, i: nat, j: nat)
    requires l.Valid() && i < l.Count() && j < 8
    ensures HalfAt(SHARED, l.ktp + i * KEYSIZE + 2 * j) == KeyHalf(l, i, j)
  {
    HalfOfLanding(l.ktp + i * KEYSIZE + 2 * j);
    var t := l.ktp / 2;
    assert l.ktp == 2 * t;
    assert l.ktp + i * KEYSIZE + 2 * j == 2 * (t + 8 * i + j);
  }

  lemma TkipAddress(l: Layout, i: nat, j: nat)
    requires l.Valid() && l.Pairwise(i) && j < 7
    ensures HalfAt(SHARED, TKIPTSCTTAK + (i - l.Start()) * 14 + 2 * j) == TkipHalf(l, i, j)
  {
    var p := i - l.Start();
    HalfOfLanding(TKIPTSCTTAK + p * 14 + 2 * j);
    assert TKIPTSCTTAK + p * 14 + 2 * j == 2 * (0x18C + 7 * p + j);
  }

  lemma MacAddress(l: Layout, i: nat)
    requires l.Valid() && l.Pairwise(i)
    ensures var p := i - l.Start();
            && HalfAt(RCMTA, p * 2) == MacHalf(l, i, 0)
            && HalfAt(RCMTA, p * 2) + 1 == MacHalf(l, i, 1)
            && HalfAt(RCMTA, p * 2 + 1) == MacHalf(l, i, 2)
  {
  }

  /** Two stores of MAC half-words are one harmless step. */
  lemma StepTwice(l: Layout, m: Memory, m1: Memory, m2: Memory, i: nat)
    requires l.Valid() && l.Pairwise(i)
    requires forall h :: !InMac(l, i, h) ==> Get(m1, h) == Get(m, h) && Get(m2, h) == Get(m1, h)
    ensures StepOk(l, m, m2)
  {
    forall k: nat, h: int | l.Pairwise(k) && Guarded(l, k, h) ensures Get(m2, h) == Get(m, h) {
      SlotsDisjoint(l, k, i, h);
    }
  }

  /** The parts of one slot do not overlap. */
  lemma Parts(l: Layout, i: nat)
    requires l.Valid() && i < l.Count()
    ensures forall h :: InKey(l, i, h) ==> !InMac(l, i, h) && !InTkip(l, i, h) && h != AlgoHalf(l, i)
    ensures forall h :: InTkip(l, i, h) ==> !InMac(l, i, h)
    ensures !InMac(l, i, AlgoHalf(l, i)) && !InTkip(l, i, AlgoHalf(l, i))
  {
    assert l.ktp / 2 >= 804;
    assert KeyHalf(l, i, 0) >= 0x20000 + 804;
    assert l.Pairwise(i) ==> TkipHalf(l, i, 7) <= 0x20000 + 746;
  }

  lemma OnlyKeysTwice(l: Layout, m: Memory, m1: Memory, m2: Memory)
    requires l.Valid() && OnlyKeys(l, m, m1) && OnlyKeys(l, m1, m2)
    ensures OnlyKeys(l, m, m2)
  {
    forall h | Get(m2, h) != Get(m, h) ensures exists i: nat :: i < l.Count() && Owned(l, i, h) {
      assert Get(m1, h) != Get(m, h) || Get(m2, h) != Get(m1, h);
    }
  }

  lemma ClearKeyMat(l: Layout, s: SlotMap, i: nat)
    requires |s.mat| == |s.conf| == KEY_SLOTS && i < l.Count()
    ensures ClearKey(l, s, i).mat ==
            if l.Mirrored(i) then s.mat[i := CLEARED][i + 4 := CLEARED] else s.mat[i := CLEARED]
  {
    assert Material(ALGO_NONE, Padded([]), None, FreshTkip(ALGO_NONE)) == CLEARED;
  }

  lemma ClearedOthers(l: Layout, m: Memory, m': Memory, i: nat, upto: nat)
    requires l.Valid() && i < l.Count() && upto <= l.Count()
    requires OnlySlot(l, m, m', i) && Holds(l, m', i, CLEARED) && ClearedUpTo(l, m, upto)
    ensures ClearedUpTo(l, m', if i == upto then upto + 1 else upto)
  {
    forall n: nat | n < upto ensures Holds(l, m', n, CLEARED) {
      if n != i {
        forall h | Owned(l, n, h) ensures Get(m', h) == Get(m, h) {
          SlotsDisjoint(l, i, n, h);
        }
        HoldsFrame(l, m, m', n, CLEARED);
      }
    }
  }
}
