/**
RF control overrides of N-PHY revision 7 and later: six enable registers, two
(one per core) for each of three groups, and the value registers they enable.

An enable register is the set of its bits that are set.
*/
module RfOverride {
  import opened Pairs

  type Bits = set<nat>

  /**
  Where the value of a field goes: a register per core, the weight of the
  field's lowest bit and the number of values the field can hold.
  */
  datatype Row = Row(addr0: nat, addr1: nat, unit: nat, size: nat) {
    function Addr(core: nat): nat {
      if core == 0 then addr0 else addr1
    }
  }

  /** b43_nphy_get_rf_ctl_over_rev7 with its three tables. */
  function Lookup(field: nat, group: nat): (r: Option<Row>)
    ensures r.Some? ==> r.value.unit > 0 && r.value.size > 0 && r.value.addr0 != r.value.addr1
  {
    if group == 0 then
      match field
      case 0x0004 => Some(Row(0x07A, 0x07D, 0x02, 2))
      case 0x0008 => Some(Row(0x07A, 0x07D, 0x04, 2))
      case 0x0010 => Some(Row(0x07A, 0x07D, 0x10, 2))
      case 0x0020 => Some(Row(0x07A, 0x07D, 0x20, 2))
      case 0x0040 => Some(Row(0x07A, 0x07D, 0x40, 2))
      case 0x0080 => Some(Row(0x07A, 0x07D, 0x80, 2))
      case 0x0400 => Some(Row(0x0F8, 0x0FA, 0x10, 8))
      case 0x0800 => Some(Row(0x07B, 0x07E, 1, 0x10000))
      case 0x1000 => Some(Row(0x07C, 0x07F, 1, 0x10000))
      case 0x6000 => Some(Row(0x348, 0x349, 1, 0x100))
      case 0x2000 => Some(Row(0x348, 0x349, 1, 0x10))
      case _ => None
    else if group == 1 then
      match field
      case 0x0002 => Some(Row(0x340, 0x341, 0x0002, 2))
      case 0x0008 => Some(Row(0x340, 0x341, 0x0008, 2))
      case 0x0020 => Some(Row(0x340, 0x341, 0x0020, 2))
      case 0x0010 => Some(Row(0x340, 0x341, 0x0010, 2))
      case 0x0004 => Some(Row(0x340, 0x341, 0x0004, 2))
      case 0x0080 => Some(Row(0x340, 0x341, 0x0100, 8))
      case 0x0800 => Some(Row(0x340, 0x341, 0x4000, 2))
      case 0x0400 => Some(Row(0x340, 0x341, 0x2000, 2))
      case 0x0200 => Some(Row(0x340, 0x341, 0x1000, 2))
      case 0x0100 => Some(Row(0x340, 0x341, 0x0800, 2))
      case 0x0040 => Some(Row(0x340, 0x341, 0x0040, 2))
      case 0x0001 => Some(Row(0x340, 0x341, 0x0001, 2))
      case _ => None
    else if group == 2 then
      match field
      case 0x0008 => Some(Row(0x344, 0x345, 0x08, 2))
      case 0x0002 => Some(Row(0x344, 0x345, 0x02, 2))
      case 0x0001 => Some(Row(0x344, 0x345, 0x01, 2))
      case 0x0004 => Some(Row(0x344, 0x345, 0x04, 2))
      case 0x0010 => Some(Row(0x344, 0x345, 0x10, 2))
      case _ => None
    else None
  }

  /**
  The second and the third group give a field the bit its number names, but the
  low-pass bandwidth takes three bits and moves the fields after it up by three;
  the single bits of the first group are at their own bit too, or one below.
  */
  lemma FieldPlaces(field: nat)
    ensures var r := Lookup(field, 2); r.Some? ==> r.value == Row(0x344, 0x345, field, 2)
    ensures var r := Lookup(field, 1);
            r.Some? ==> r.value == if field == 0x80 then Row(0x340, 0x341, 0x100, 8)
                                   else Row(0x340, 0x341, if field < 0x80 then field else 8 * field, 2)
    ensures var r := Lookup(field, 0);
            r.Some? && field < 0x100 ==> r.value == Row(0x07A, 0x07D, if field < 0x10 then field / 2 else field, 2)
  {
  }

  // ---------------------------------------------------------------- value registers

  /** A value that stays inside its field. */
  predicate Fits(field: nat, group: nat, value: nat) {
    var r := Lookup(field, group);
    r.Some? ==> value < r.value.size
  }

  type Registers = map<nat, nat>

  function Value(regs: Registers, addr: nat): nat {
    if addr in regs then regs[addr] else 0
  }

  function Field(reg: nat, unit: nat, size: nat): nat
    requires unit > 0 && size > 0
  {
    reg / unit % size
  }

  /** A maskset of one field with a value that fits it: the bits below and above stay. */
  function MaskSet(reg: nat, unit: nat, size: nat, value: nat): nat
    requires unit > 0 && size > 0
  {
    (reg / unit / size * size + value) * unit + reg % unit
  }

  /** Division with remainder has one answer. */
  lemma Split(high: nat, low: nat, unit: nat)
    requires unit > 0 && low < unit
    ensures (high * unit + low) / unit == high && (high * unit + low) % unit == low
  {
    var n := high * unit + low;
    var d: int := n / unit - high;
    assert d * unit == low - n % unit;
    AtLeastOne(d, unit);
  }

  lemma AtLeastOne(d: int, unit: int)
    requires unit > 0
    ensures d > 0 ==> d * unit >= unit
    ensures d < 0 ==> d * unit <= -unit
  {
    if d > 0 {
      assert d * unit - unit == (d - 1) * unit;
    } else if d < 0 {
      assert -(d * unit) - unit == (-d - 1) * unit;
    }
  }

  lemma MaskSetReads(reg: nat, unit: nat, size: nat, value: nat)
    requires unit > 0 && size > 0 && value < size
    ensures var r := MaskSet(reg, unit, size, value);
            Field(r, unit, size) == value && r % unit == reg % unit && r / unit / size == reg / unit / size
  {
    Split(reg / unit / size * size + value, reg % unit, unit);
    Split(reg / unit / size, value, size);
  }

  function WriteOne(regs: Registers, field: nat, group: nat, core: nat, value: nat): Registers {
    match Lookup(field, group)
    case None => regs
    case Some(r) => regs[r.Addr(core) := MaskSet(Value(regs, r.Addr(core)), r.unit, r.size, value)]
  }

  /** One core's value register after a call: off writes zero, whichever core was asked for. */
  function ValuedOne(regs: Registers, field: nat, value: nat, core: nat, off: bool, group: nat, i: nat): Registers {
    if off then WriteOne(regs, field, group, i, 0)
    else if Selects(core, i) then WriteOne(regs, field, group, i, value)
    else regs
  }

  /** Both cores' value registers after a call. */
  function Valued(regs: Registers, field: nat, value: nat, core: nat, off: bool, group: nat): Registers {
    ValuedOne(ValuedOne(regs, field, value, core, off, group, 0), field, value, core, off, group, 1)
  }

  /**
  The field of each core the call reaches reads back what was written, and the
  register's bits below and above the field are as they were.
  */
  lemma ValueReadsBack(regs: Registers, field: nat, value: nat, core: nat, off: bool, group: nat, i: nat)
    requires i < 2 && Lookup(field, group).Some? && (!off ==> Fits(field, group, value))
    requires off || Selects(core, i)
    ensures var r := Lookup(field, group).value;
            var before, after := Value(regs, r.Addr(i)), Value(Valued(regs, field, value, core, off, group), r.Addr(i));
            && Field(after, r.unit, r.size) == (if off then 0 else value)
            && after % r.unit == before % r.unit && after / r.unit / r.size == before / r.unit / r.size
  {
    var r := Lookup(field, group).value;
    MaskSetReads(Value(regs, r.Addr(i)), r.unit, r.size, if off then 0 else value);
  }

  /** The value a field of a core holds. */
  predicate Carries(regs: Registers, field: nat, group: nat, i: nat, value: nat) {
    var r := Lookup(field, group);
    r.Some? && Field(Value(regs, r.value.Addr(i)), r.value.unit, r.value.size) == value
  }

  /** Both parts of a transmit gain word, and of a receive gain word. */
  predicate TxGainIs(regs: Registers, i: nat, word: nat) {
    Carries(regs, 0x1000, 0, i, word % 0x8000) && Carries(regs, 0x2000, 0, i, word / 0x8000 * 2)
  }

  predicate RxGainIs(regs: Registers, i: nat, word: nat) {
    Carries(regs, 0x800, 0, i, word % 0x100) && Carries(regs, 0x6000, 0, i, word / 0x100)
  }

  /** No value register but these has moved. */
  ghost predicate SameOutside(regs: Registers, regs': Registers, addrs: set<nat>) {
    forall a :: a !in addrs ==> Value(regs', a) == Value(regs, a)
  }

  /** A call moves the registers of its own field only. */
  lemma ValuedOutside(regs: Registers, field: nat, value: nat, core: nat, off: bool, group: nat, addrs: set<nat>)
    requires Lookup(field, group).Some? ==> {Lookup(field, group).value.addr0, Lookup(field, group).value.addr1} <= addrs
    ensures SameOutside(regs, Valued(regs, field, value, core, off, group), addrs)
  {
  }

  /** Two fields in registers of their own, written one after the other. */
  lemma TwoFields(regs: Registers, field: nat, value: nat, field': nat, value': nat, core: nat, i: nat)
    requires i < 2 && Selects(core, i) && Fits(field, 0, value) && Fits(field', 0, value')
    requires Lookup(field, 0).Some? && Lookup(field', 0).Some?
    requires var r, r' := Lookup(field, 0).value, Lookup(field', 0).value;
             {r.addr0, r.addr1} !! {r'.addr0, r'.addr1}
    ensures var after := Valued(Valued(regs, field, value, core, false, 0), field', value', core, false, 0);
            Carries(after, field, 0, i, value) && Carries(after, field', 0, i, value')
  {
    var first := Valued(regs, field, value, core, false, 0);
    ValueReadsBack(regs, field, value, core, false, 0, i);
    ValueReadsBack(first, field', value', core, false, 0, i);
    Elsewhere(first, field', value', core, Lookup(field, 0).value.Addr(i));
  }

  lemma Elsewhere(regs: Registers, field: nat, value: nat, core: nat, addr: nat)
    requires Lookup(field, 0).Some?
    requires addr != Lookup(field, 0).value.addr0 && addr != Lookup(field, 0).value.addr1
    ensures Value(Valued(regs, field, value, core, false, 0), addr) == Value(regs, addr)
  {
  }

  // ---------------------------------------------------------------- one field and another

  lemma DivAdd(a: nat, x: nat, u: nat)
    requires u > 0
    ensures (a * u + x) / u == a + x / u && (a * u + x) % u == x % u
  {
    assert a * u + x == (a + x / u) * u + x % u;
    Split(a + x / u, x % u, u);
  }

  lemma DivDiv(x: nat, a: nat, b: nat)
    requires a > 0 && b > 0
    ensures x / (a * b) == x / a / b
  {
    var y := x / a;
    var q, t, u := y / b, y % b, x % a;
    TwoDigits(q, t, u, a, b);
    assert x == y * a + u && y == q * b + t;
    Split(q, t * a + u, a * b);
  }

  lemma TwoDigits(q: nat, t: nat, u: nat, a: nat, b: nat)
    requires t < b && u < a
    ensures (q * b + t) * a + u == q * (a * b) + (t * a + u)
    ensures 0 <= t * a + u < a * b
  {
    Distribute(q * b, t, a);
    Reassociate(q, b, a);
    Distribute(b - 1 - t, t, a);
    Distribute(b - 1, 1, a);
    NotNegative(b - 1 - t, a);
  }

  lemma Distribute(x: int, y: int, a: int)
    ensures (x + y) * a == x * a + y * a
  {
  }

  lemma Reassociate(q: int, b: int, a: int)
    ensures q * b * a == q * (a * b)
  {
  }

  lemma NotNegative(x: nat, a: nat)
    ensures x * a >= 0
  {
  }

  /** A field below another does not see it. */
  lemma FieldBelow(high: nat, low: nat, unit: nat, size: nat)
    requires unit > 0 && size > 0
    ensures Field(high * (unit * size) + low, unit, size) == Field(low, unit, size)
  {
    assert high * (unit * size) == high * size * unit;
    DivAdd(high * size, low, unit);
    DivAdd(high, low / unit, size);
  }

  /** Fields that share no bit: one lies wholly below the other. */
  predicate Beside(unit: nat, size: nat, unit': nat, size': nat)
    requires unit > 0 && size > 0 && unit' > 0 && size' > 0
  {
    unit % (unit' * size') == 0 || unit' % (unit * size) == 0
  }

  lemma MaskSetKeeps(reg: nat, unit: nat, size: nat, value: nat, unit': nat, size': nat)
    requires unit > 0 && size > 0 && unit' > 0 && size' > 0 && value < size && Beside(unit, size, unit', size')
    ensures Field(MaskSet(reg, unit, size, value), unit', size') == Field(reg, unit', size')
  {
    var r := MaskSet(reg, unit, size, value);
    MaskSetReads(reg, unit, size, value);
    if unit % (unit' * size') == 0 {
      var k := unit / (unit' * size');
      Multiple(r / unit, k, unit' * size', unit, r);
      Multiple(reg / unit, k, unit' * size', unit, reg);
      FieldBelow(r / unit * k, r % unit, unit', size');
      FieldBelow(reg / unit * k, reg % unit, unit', size');
    } else {
      var k := unit' / (unit * size);
      DivDiv(r, unit, size);
      DivDiv(reg, unit, size);
      assert unit' == unit * size * k;
      DivDiv(r, unit * size, k);
      DivDiv(reg, unit * size, k);
    }
  }

  lemma Multiple(q: nat, k: nat, p: nat, unit: nat, x: nat)
    requires unit > 0 && unit == k * p && q == x / unit
    ensures x == q * k * p + x % unit
  {
    assert q * (k * p) == q * k * p;
    assert x == x / unit * unit + x % unit;
  }

  /** Two fields a call can name without the one disturbing the other. */
  predicate Apart(field: nat, group: nat, field': nat, group': nat) {
    var r, r' := Lookup(field, group), Lookup(field', group');
    r.Some? && r'.Some? &&
    ({r.value.addr0, r.value.addr1} !! {r'.value.addr0, r'.value.addr1}
     || (r.value.addr0 == r'.value.addr0 && r.value.addr1 == r'.value.addr1
         && Beside(r.value.unit, r.value.size, r'.value.unit, r'.value.size)))
  }

  /** The gain fields of the first group that are given one place. */
  predicate OnePlace(field: nat, field': nat) {
    (field == 0x2000 && field' == 0x6000) || (field == 0x6000 && field' == 0x2000)
  }

  /**
  No two fields of the three tables share a bit, except for the transmit and the
  receive gain, which are given one place.
  */
  lemma FieldsApart(field: nat, group: nat, field': nat, group': nat)
    requires Lookup(field, group).Some? && Lookup(field', group').Some?
    requires group != group' || (field != field' && !OnePlace(field, field'))
    ensures Apart(field, group, field', group')
  {
    if group == group' {
      hide Apart, Lookup;
      if group == 0 { FirstApart(field, field'); } else if group == 1 { SecondApart(field, field'); } else { ThirdApart(field, field'); }
    } else {
      Addresses(field, group);
      Addresses(field', group');
      hide Lookup;
    }
  }

  /** Each group has value registers of its own. */
  lemma Addresses(field: nat, group: nat)
    requires Lookup(field, group).Some?
    ensures var r := Lookup(field, group).value;
            if group == 0 then {r.addr0, r.addr1} !! {0x340, 0x341, 0x344, 0x345}
            else if group == 1 then r.addr0 == 0x340 && r.addr1 == 0x341
            else group == 2 && r.addr0 == 0x344 && r.addr1 == 0x345
  {
  }

  lemma FirstApart(field: nat, field': nat)
    requires Lookup(field, 0).Some? && Lookup(field', 0).Some? && field != field' && !OnePlace(field, field')
    ensures Apart(field, 0, field', 0)
  {
  }

  lemma SecondApart(field: nat, field': nat)
    requires Lookup(field, 1).Some? && Lookup(field', 1).Some? && field != field'
    ensures Apart(field, 1, field', 1)
  {
    hide Apart, Lookup;
    if field < 0x0010 { LowApart(field, field'); } else if field < 0x0100 { MiddleApart(field, field'); }
    else if field < 0x0400 { HighApart(field, field'); } else { TopApart(field, field'); }
  }

  lemma LowApart(field: nat, field': nat)
    requires Lookup(field, 1).Some? && Lookup(field', 1).Some? && field != field' && field < 0x0010
    ensures Apart(field, 1, field', 1)
  {
  }

  lemma MiddleApart(field: nat, field': nat)
    requires Lookup(field, 1).Some? && Lookup(field', 1).Some? && field != field' && 0x0010 <= field < 0x0100
    ensures Apart(field, 1, field', 1)
  {
  }

  lemma HighApart(field: nat, field': nat)
    requires Lookup(field, 1).Some? && Lookup(field', 1).Some? && field != field' && 0x0100 <= field < 0x0400
    ensures Apart(field, 1, field', 1)
  {
  }

  lemma TopApart(field: nat, field': nat)
    requires Lookup(field, 1).Some? && Lookup(field', 1).Some? && field != field' && 0x0400 <= field
    ensures Apart(field, 1, field', 1)
  {
  }

  lemma ThirdApart(field: nat, field': nat)
    requires Lookup(field, 2).Some? && Lookup(field', 2).Some? && field != field'
    ensures Apart(field, 2, field', 2)
  {
  }

  /** A call leaves the value of every other field as it was. */
  lemma ValuedKeeps(regs: Registers, field: nat, value: nat, core: nat, off: bool, group: nat,
                    field': nat, group': nat, i: nat, value': nat)
    requires i < 2 && (!off ==> Fits(field, group, value)) && Apart(field, group, field', group')
    requires Carries(regs, field', group', i, value')
    ensures Carries(Valued(regs, field, value, core, off, group), field', group', i, value')
  {
    var r, r' := Lookup(field, group).value, Lookup(field', group').value;
    if r.addr0 == r'.addr0 && r.addr1 == r'.addr1 && Beside(r.unit, r.size, r'.unit, r'.size) {
      MaskSetKeeps(Value(regs, r.Addr(i)), r.unit, r.size, if off then 0 else value, r'.unit, r'.size);
    }
  }

  /** A field of a group and a value it is to hold. */
  datatype Setting = Setting(field: nat, group: nat, value: nat)

  ghost predicate CarriesAll(regs: Registers, i: nat, settings: set<Setting>) {
    forall s :: s in settings ==> Carries(regs, s.field, s.group, i, s.value)
  }

  /** None of the settings is about this field, or about the gain field in the same place. */
  ghost predicate Others(settings: set<Setting>, field: nat, group: nat) {
    forall s :: s in settings ==> s.group != group || (s.field != field && !OnePlace(s.field, field))
  }

  lemma ValuedKeepsAll(regs: Registers, field: nat, value: nat, core: nat, off: bool, group: nat, i: nat, settings: set<Setting>)
    requires i < 2 && Lookup(field, group).Some? && (!off ==> Fits(field, group, value)) && Others(settings, field, group)
    requires CarriesAll(regs, i, settings)
    ensures CarriesAll(Valued(regs, field, value, core, off, group), i, settings)
  {
    forall s | s in settings
      ensures Carries(Valued(regs, field, value, core, off, group), s.field, s.group, i, s.value)
    {
      FieldsApart(field, group, s.field, s.group);
      ValuedKeeps(regs, field, value, core, off, group, s.field, s.group, i, s.value);
    }
  }

  /** The value registers of the two cores are different ones, whatever the field. */
  lemma SidesDiffer(field: nat, group: nat, field': nat, group': nat, i: nat)
    requires i < 2 && Lookup(field, group).Some? && Lookup(field', group').Some?
    ensures Lookup(field, group).value.Addr(1 - i) != Lookup(field', group').value.Addr(i)
  {
    Side(field, group);
    Side(field', group');
  }

  lemma Side(field: nat, group: nat)
    requires Lookup(field, group).Some?
    ensures Lookup(field, group).value.addr0 in {0x07A, 0x07B, 0x07C, 0x0F8, 0x340, 0x344, 0x348}
    ensures Lookup(field, group).value.addr1 in {0x07D, 0x07E, 0x07F, 0x0FA, 0x341, 0x345, 0x349}
  {
  }

  /** A call for the other core alone leaves every value of this one. */
  lemma OtherSideKeeps(regs: Registers, field: nat, value: nat, core: nat, group: nat, i: nat, settings: set<Setting>)
    requires i < 2 && Lookup(field, group).Some? && !Selects(core, i) && CarriesAll(regs, i, settings)
    ensures CarriesAll(Valued(regs, field, value, core, false, group), i, settings)
  {
    forall s | s in settings
      ensures Carries(Valued(regs, field, value, core, false, group), s.field, s.group, i, s.value)
    {
      SidesDiffer(field, group, s.field, s.group, i);
    }
  }

  /** What a core carries after a call, if the settings are about other fields or the call is not for this core. */
  lemma Taken(regs: Registers, field: nat, value: nat, core: nat, group: nat, i: nat, settings: set<Setting>)
    requires i < 2 && Lookup(field, group).Some? && Fits(field, group, value) && CarriesAll(regs, i, settings)
    requires Selects(core, i) ==> Others(settings, field, group)
    ensures CarriesAll(Valued(regs, field, value, core, false, group), i,
                       if Selects(core, i) then settings + {Setting(field, group, value)} else settings)
  {
    if Selects(core, i) {
      ValuedKeepsAll(regs, field, value, core, false, group, i, settings);
      ValueReadsBack(regs, field, value, core, false, group, i);
    } else {
      OtherSideKeeps(regs, field, value, core, group, i, settings);
    }
  }

  /** Both cores hold these values. */
  ghost predicate BothHold(regs: Registers, settings: set<Setting>) {
    CarriesAll(regs, 0, settings) && CarriesAll(regs, 1, settings)
  }

  lemma BothTaken(regs: Registers, field: nat, value: nat, core: nat, group: nat, settings: set<Setting>)
    requires core in {0, 3} && Lookup(field, group).Some? && Fits(field, group, value)
    requires BothHold(regs, settings) && Others(settings, field, group)
    ensures BothHold(Valued(regs, field, value, core, false, group), settings + {Setting(field, group, value)})
  {
    Taken(regs, field, value, core, group, 0, settings);
    Taken(regs, field, value, core, group, 1, settings);
  }

  lemma BothKeep(regs: Registers, field: nat, value: nat, core: nat, off: bool, group: nat, settings: set<Setting>)
    requires Lookup(field, group).Some? && (!off ==> Fits(field, group, value))
    requires BothHold(regs, settings) && Others(settings, field, group)
    ensures BothHold(Valued(regs, field, value, core, off, group), settings)
  {
    ValuedKeepsAll(regs, field, value, core, off, group, 0, settings);
    ValuedKeepsAll(regs, field, value, core, off, group, 1, settings);
  }

  // ---------------------------------------------------------------- enable registers

  /** The bits a field number stands for. */
  function FieldBits(field: nat): Bits {
    match field
    case 0x0001 => {0}
    case 0x0002 => {1}
    case 0x0004 => {2}
    case 0x0008 => {3}
    case 0x0010 => {4}
    case 0x0020 => {5}
    case 0x0040 => {6}
    case 0x0080 => {7}
    case 0x0100 => {8}
    case 0x0200 => {9}
    case 0x0400 => {10}
    case 0x0800 => {11}
    case 0x1000 => {12}
    case 0x2000 => {13}
    case 0x4000 => {14}
    case 0x8000 => {15}
    case 0x6000 => {13, 14}
    case _ => {}
  }

  /** The enable registers of the three groups, two each. */
  datatype Enables = Enables(o0: Pair<Bits>, o1: Pair<Bits>, o2: Pair<Bits>) {
    function Get(group: nat): Pair<Bits> {
      if group == 0 then o0 else if group == 1 then o1 else o2
    }

    function Set(group: nat, p: Pair<Bits>): Enables {
      if group == 0 then this.(o0 := p) else if group == 1 then this.(o1 := p) else this.(o2 := p)
    }
  }

  /** Core argument 0 means both cores, otherwise it is a mask of cores. */
  predicate Selects(core: nat, i: nat): (yes: bool)
    ensures core == 0 || core == 3 ==> yes
    ensures core == 1 ==> (yes <==> i == 0)
    ensures core == 2 ==> (yes <==> i != 0)
  {
    core == 0 || (if i == 0 then core % 2 == 1 else core / 2 % 2 == 1)
  }

  /** One enable register after a call: switching off always clears it, whichever core was asked for. */
  function Enabled(bits: Bits, field: nat, core: nat, off: bool, i: nat): Bits {
    if off then bits - FieldBits(field)
    else if Selects(core, i) then bits + FieldBits(field)
    else bits
  }

  function Overridden(en: Enables, field: nat, core: nat, off: bool, group: nat): Enables {
    var p := en.Get(group);
    en.Set(group, Pair(Enabled(p.c0, field, core, off, 0), Enabled(p.c1, field, core, off, 1)))
  }
}
