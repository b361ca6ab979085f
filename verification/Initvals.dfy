/**
The initial values file: a run of big-endian records, each a 16-bit header
(bit 15 says the value is 32 bits wide, the rest is a register offset) and a
value of 16 or 32 bits.
*/
module Initvals {

  type Octet = n: int | 0 <= n < 256

  const IV_32BIT := 0x8000
  const IV_OFFSET_END := 0x1000

  /** One register write, as the file describes it and as the driver performs it. */
  datatype Iv = Iv16(offset: nat, value: nat) | Iv32(offset: nat, value: nat) {
    predicate Valid() {
      offset < IV_OFFSET_END && value < (if Iv32? then 0x1_0000_0000 else 0x10000)
    }
  }

  type Record = r: Iv | r.Valid() witness Iv16(0, 0)

  function Be16(v: nat): (b: seq<Octet>)
    requires v < 0x10000
    ensures |b| == 2
  {
    [v / 256, v % 256]
  }

  function Be32(v: nat): (b: seq<Octet>)
    requires v < 0x1_0000_0000
    ensures |b| == 4
  {
    Be16(v / 0x10000) + Be16(v % 0x10000)
  }

  function FromBe16(b: seq<Octet>): nat
    requires |b| == 2
  {
    b[0] as int * 256 + b[1] as int
  }

  function FromBe32(b: seq<Octet>): nat
    requires |b| == 4
  {
    FromBe16(b[..2]) * 0x10000 + FromBe16(b[2..])
  }

  function EncodeOne(r: Record): (b: seq<Octet>)
    ensures |b| == if r.Iv32? then 6 else 4
  {
    match r
    case Iv16(offset, value) => Be16(offset) + Be16(value)
    case Iv32(offset, value) => Be16(IV_32BIT + offset) + Be32(value)
  }

  function Encode(rs: seq<Record>): seq<Octet> {
    if rs == [] then [] else EncodeOne(rs[0]) + Encode(rs[1..])
  }

  lemma Assoc(a: seq<Octet>, b: seq<Octet>, c: seq<Octet>)
    ensures (a + b) + c == a + (b + c)
  {
  }

  /** The first `n` records without the first, and what follows them. */
  lemma Slices(rs: seq<Record>, n: nat)
    requires 0 < n <= |rs|
    ensures rs[..n] != [] && rs[..n][0] == rs[0]
    ensures rs[..n][1..] == rs[1..][..n - 1] && rs[1..][n - 1..] == rs[n..]
  {
  }

  lemma {:induction false} EncodeSplit(rs: seq<Record>, n: nat)
    requires n <= |rs|
    ensures Encode(rs) == Encode(rs[..n]) + Encode(rs[n..])
    decreases n
  {
    if n == 0 {
      assert rs[..0] == [] && rs[0..] == rs;
    } else {
      Slices(rs, n);
      EncodeSplit(rs[1..], n - 1);
      Assoc(EncodeOne(rs[0]), Encode(rs[1..][..n - 1]), Encode(rs[n..]));
    }
  }

  lemma EncodeAppend(rs: seq<Record>, r: Record)
    ensures Encode(rs + [r]) == Encode(rs) + EncodeOne(r)
  {
    EncodeSplit(rs + [r], |rs|);
    assert (rs + [r])[..|rs|] == rs && (rs + [r])[|rs|..] == [r];
    EncodeSingle(r);
  }

  lemma EncodeSingle(r: Record)
    ensures Encode([r]) == EncodeOne(r)
  {
    assert [r][1..] == [];
    assert EncodeOne(r) + [] == EncodeOne(r);
  }

  lemma Be16RoundTrip(v: nat, b: seq<Octet>)
    requires v < 0x10000 && |b| == 2
    ensures FromBe16(Be16(v)) == v
    ensures FromBe16(b) < 0x10000 && Be16(FromBe16(b)) == b
  {
  }

  lemma Be32RoundTrip(v: nat, b: seq<Octet>)
    requires v < 0x1_0000_0000 && |b| == 4
    ensures FromBe32(Be32(v)) == v
    ensures FromBe32(b) < 0x1_0000_0000 && Be32(FromBe32(b)) == b
  {
    Be16RoundTrip(v / 0x10000, b[..2]);
    Be16RoundTrip(v % 0x10000, b[2..]);
    assert Be32(v)[..2] == Be16(v / 0x10000) && Be32(v)[2..] == Be16(v % 0x10000);
    var hi, lo := FromBe16(b[..2]), FromBe16(b[2..]);
    assert (hi * 0x10000 + lo) / 0x10000 == hi && (hi * 0x10000 + lo) % 0x10000 == lo;
    assert Be32(FromBe32(b)) == b[..2] + b[2..] == b;
  }

  /** What one look at the head of the remaining bytes finds. */
  datatype Head = Malformed | Found(record: Record)

  lemma WideHead(b: seq<Octet>)
    requires |b| >= 6 && FromBe16(b[..2]) >= IV_32BIT && FromBe16(b[..2]) % 0x8000 < IV_OFFSET_END
    ensures FromBe32(b[2..6]) < 0x1_0000_0000
    ensures EncodeOne(Iv32(FromBe16(b[..2]) % 0x8000, FromBe32(b[2..6]))) <= b
  {
    Be32RoundTrip(0, b[2..6]);
    Be16RoundTrip(0, b[..2]);
    assert b[..2] + b[2..6] == b[..6];
  }

  lemma NarrowHead(b: seq<Octet>)
    requires |b| >= 4 && FromBe16(b[..2]) < IV_32BIT && FromBe16(b[..2]) % 0x8000 < IV_OFFSET_END
    ensures FromBe16(b[2..4]) < 0x10000
    ensures EncodeOne(Iv16(FromBe16(b[..2]) % 0x8000, FromBe16(b[2..4]))) <= b
  {
    Be16RoundTrip(0, b[2..4]);
    Be16RoundTrip(0, b[..2]);
    assert b[..2] + b[2..4] == b[..4];
  }

  function ReadHead(b: seq<Octet>): (h: Head)
    ensures h.Found? ==> EncodeOne(h.record) <= b
  {
    if |b| < 2 then Malformed
    else
      var header := FromBe16(b[..2]);
      var offset := header % 0x8000;
      if offset >= IV_OFFSET_END then Malformed
      else if header >= IV_32BIT then
        if |b| < 6 then Malformed
        else
          WideHead(b);
          Found(Iv32(offset, FromBe32(b[2..6])))
      else
        if |b| < 4 then Malformed
        else
          NarrowHead(b);
          Found(Iv16(offset, FromBe16(b[2..4])))
  }

  /** Whatever begins with a record is read as that record. */
  lemma ReadHeadOfEncoding(r: Record, rest: seq<Octet>)
    ensures ReadHead(EncodeOne(r) + rest) == Found(r)
  {
    var b := EncodeOne(r) + rest;
    match r {
      case Iv16(offset, value) =>
        assert b[..2] == Be16(offset) && b[2..4] == Be16(value);
        Be16RoundTrip(offset, b[..2]);
        Be16RoundTrip(value, b[2..4]);
      case Iv32(offset, value) =>
        assert b[..2] == Be16(IV_32BIT + offset) && b[2..6] == Be32(value);
        Be16RoundTrip(IV_32BIT + offset, b[..2]);
        Be32RoundTrip(value, b[2..6]);
    }
  }

  lemma SameHead(r: Record, rest: seq<Octet>, s: Record, rest': seq<Octet>)
    requires EncodeOne(r) + rest == EncodeOne(s) + rest'
    ensures r == s && rest == rest'
  {
    ReadHeadOfEncoding(r, rest);
    ReadHeadOfEncoding(s, rest');
    Tail(EncodeOne(r), rest);
    Tail(EncodeOne(s), rest');
  }

  lemma Tail(head: seq<Octet>, rest: seq<Octet>)
    ensures (head + rest)[|head|..] == rest
  {
  }

  /** Two lists of one length whose encodings begin the same bytes are the same list. */
  lemma {:induction false} SamePrefix(rs: seq<Record>, t: seq<Octet>, ss: seq<Record>, u: seq<Octet>)
    requires Encode(rs) + t == Encode(ss) + u && |rs| == |ss|
    ensures rs == ss && t == u
    decreases |rs|
  {
    if rs == [] {
      assert [] + t == t && [] + u == u;
    } else {
      Assoc(EncodeOne(rs[0]), Encode(rs[1..]), t);
      Assoc(EncodeOne(ss[0]), Encode(ss[1..]), u);
      SameHead(rs[0], Encode(rs[1..]) + t, ss[0], Encode(ss[1..]) + u);
      SamePrefix(rs[1..], t, ss[1..], u);
      assert rs == [rs[0]] + rs[1..] && ss == [ss[0]] + ss[1..];
    }
  }

  /** A byte string is the encoding of at most one list of records. */
  lemma EncodeInjective(rs: seq<Record>, ss: seq<Record>, tail: seq<Octet>)
    requires Encode(rs) + tail == Encode(ss) && |rs| == |ss|
    ensures rs == ss && tail == []
  {
    assert Encode(ss) + [] == Encode(ss);
    SamePrefix(rs, tail, ss, []);
  }

  /** A list whose encoding begins the bytes agrees with the records that can be read there. */
  lemma PrefixesAgree(rs: seq<Record>, t: seq<Octet>, ss: seq<Record>, u: seq<Octet>)
    requires Encode(rs) + t == Encode(ss) + u && |rs| <= |ss|
    ensures rs == ss[..|rs|] && t == Encode(ss[|rs|..]) + u
  {
    EncodeSplit(ss, |rs|);
    Assoc(Encode(ss[..|rs|]), Encode(ss[|rs|..]), u);
    SamePrefix(rs, t, ss[..|rs|], Encode(ss[|rs|..]) + u);
  }

  ghost predicate IsEncoding(data: seq<Octet>, count: nat) {
    exists rs: seq<Record> :: |rs| == count && Encode(rs) == data
  }

  /**
  What a decoding of `count` records did: success exactly on encodings of
  `count` records with no byte left over, having written exactly those records;
  on failure, the records that could be read before the bad place were written.
  */
  ghost predicate Outcome(data: seq<Octet>, count: nat, ok: bool, writes: seq<Record>) {
    && (ok <==> IsEncoding(data, count))
    && (ok ==> |writes| == count && Encode(writes) == data)
    && (!ok ==> |writes| <= count && Encode(writes) <= data)
    && (!ok && |writes| < count ==> ReadHead(data[|Encode(writes)|..]) == Malformed)
    && (!ok && |writes| == count ==> Encode(writes) != data)
  }

  /** What the head of the remaining bytes is, in the terms the driver tests it in. */
  lemma HeadOfBytes(b: seq<Octet>)
    ensures if |b| < 2 then ReadHead(b) == Malformed else
              var header := FromBe16(b[..2]);
              var offset := header % 0x8000;
              if offset >= IV_OFFSET_END then ReadHead(b) == Malformed
              else if header >= IV_32BIT then
                (if |b| < 6 then ReadHead(b) == Malformed
                 else FromBe32(b[2..6]) < 0x1_0000_0000 && ReadHead(b) == Found(Iv32(offset, FromBe32(b[2..6]))))
              else
                (if |b| < 4 then ReadHead(b) == Malformed
                 else FromBe16(b[2..4]) < 0x10000 && ReadHead(b) == Found(Iv16(offset, FromBe16(b[2..4]))))
  {
  }

  /** One record more has been read. */
  lemma Extended(data: seq<Octet>, iv: nat, writes: seq<Record>, r: Record)
    requires iv <= |data| && data[..iv] == Encode(writes) && ReadHead(data[iv..]) == Found(r)
    ensures var end := iv + if r.Iv32? then 6 else 4;
            end <= |data| && data[..end] == Encode(writes + [r]) && |Encode(writes + [r])| == end
  {
    EncodeAppend(writes, r);
    assert data[..iv + |EncodeOne(r)|] == data[..iv] + data[iv..][..|EncodeOne(r)|];
  }

  /** b43_write_initvals: `writes` are the register writes performed, in order. */
  method WriteInitvals(data: seq<Octet>, count: nat) returns (ok: bool, writes: seq<Record>)
    ensures Outcome(data, count, ok, writes)
  {
    writes := [];
    var iv := 0;
    var arraySize := |data|;
    var i := 0;
    while i < count
      invariant 0 <= i <= count && |writes| == i
      invariant iv + arraySize == |data| && arraySize >= 0
      invariant iv == |Encode(writes)| && data[..iv] == Encode(writes)
    {
      hide Encode, ReadHead, EncodeOne, IsEncoding;
      ghost var rest := data[iv..];
      HeadOfBytes(rest);
      if arraySize < 2 {
        NotEncoding(data, count, writes);
        return false, writes;
      }
      arraySize := arraySize - 2;
      assert data[iv..iv + 2] == rest[..2];
      var header := FromBe16(data[iv..iv + 2]);
      var bit32 := header >= IV_32BIT;
      var offset := header % 0x8000;
      if offset >= 0x1000 {
        NotEncoding(data, count, writes);
        return false, writes;
      }
      var record: Record;
      if bit32 {
        if arraySize < 4 {
          NotEncoding(data, count, writes);
          return false, writes;
        }
        arraySize := arraySize - 4;
        assert data[iv + 2..iv + 6] == rest[2..6];
        var value := FromBe32(data[iv + 2..iv + 6]);
        Be32RoundTrip(0, data[iv + 2..iv + 6]);
        record := Iv32(offset, value);
        Extended(data, iv, writes, record);
        iv := iv + 6;
      } else {
        if arraySize < 2 {
          NotEncoding(data, count, writes);
          return false, writes;
        }
        arraySize := arraySize - 2;
        assert data[iv + 2..iv + 4] == rest[2..4];
        var value := FromBe16(data[iv + 2..iv + 4]);
        Be16RoundTrip(0, data[iv + 2..iv + 4]);
        record := Iv16(offset, value);
        Extended(data, iv, writes, record);
        iv := iv + 4;
      }
      writes := writes + [record];
      i := i + 1;
    }
    if arraySize != 0 {
      NoLeftOver(data, count, writes);
      return false, writes;
    }
    assert data[..iv] == data;
    return true, writes;
  }

  /** Bytes that stop making sense before `count` records are no encoding of `count` records. */
  lemma NotEncoding(data: seq<Octet>, count: nat, writes: seq<Record>)
    requires Encode(writes) <= data && |writes| < count
    requires ReadHead(data[|Encode(writes)|..]) == Malformed
    ensures !IsEncoding(data, count)
  {
    if IsEncoding(data, count) {
      var rs: seq<Record> :| |rs| == count && Encode(rs) == data;
      var rest := data[|Encode(writes)|..];
      Rest(Encode(writes), data);
      Rest(Encode(rs), data);
      assert data[|data|..] == [];
      PrefixesAgree(writes, rest, rs, []);
      HeadPresent(rs[|writes|..], []);
    }
  }

  lemma Rest(a: seq<Octet>, data: seq<Octet>)
    requires a <= data
    ensures a + data[|a|..] == data
  {
  }

  /** Where records follow, the first of them is read. */
  lemma HeadPresent(tail: seq<Record>, rest: seq<Octet>)
    requires tail != []
    ensures ReadHead(Encode(tail) + rest) == Found(tail[0])
  {
    Assoc(EncodeOne(tail[0]), Encode(tail[1..]), rest);
    ReadHeadOfEncoding(tail[0], Encode(tail[1..]) + rest);
  }

  lemma NoLeftOver(data: seq<Octet>, count: nat, writes: seq<Record>)
    requires Encode(writes) <= data && |writes| == count && Encode(writes) != data
    ensures !IsEncoding(data, count)
  {
    if IsEncoding(data, count) {
      var rs: seq<Record> :| |rs| == count && Encode(rs) == data;
      var tail := data[|Encode(writes)|..];
      assert Encode(writes) + tail == Encode(rs);
      EncodeInjective(writes, rs, tail);
    }
  }

  /** Decoding the encoding of any list performs exactly that list of writes and succeeds. */
  lemma RoundTrip(rs: seq<Record>, ok: bool, writes: seq<Record>)
    requires Outcome(Encode(rs), |rs|, ok, writes)
    ensures ok && writes == rs
  {
    assert IsEncoding(Encode(rs), |rs|);
    assert Encode(writes) + [] == Encode(rs);
    EncodeInjective(writes, rs, []);
  }

  /** The outcome is determined by the bytes and the count, on failure too. */
  lemma OutcomeUnique(data: seq<Octet>, count: nat, ok: bool, writes: seq<Record>, ok': bool, writes': seq<Record>)
    requires Outcome(data, count, ok, writes) && Outcome(data, count, ok', writes')
    ensures ok == ok' && writes == writes'
  {
    if ok {
      assert Encode(writes) + [] == Encode(writes');
      EncodeInjective(writes, writes', []);
    } else if |writes| <= |writes'| {
      FailuresAgree(data, count, writes, writes');
    } else {
      FailuresAgree(data, count, writes', writes);
    }
  }

  lemma FailuresAgree(data: seq<Octet>, count: nat, ws: seq<Record>, vs: seq<Record>)
    requires Outcome(data, count, false, ws) && Outcome(data, count, false, vs) && |ws| <= |vs|
    ensures ws == vs
  {
    var t, u := data[|Encode(ws)|..], data[|Encode(vs)|..];
    Rest(Encode(ws), data);
    Rest(Encode(vs), data);
    Longer(ws, t, vs, u);
  }

  /** If a shorter list can be read on, something is left to read after it. */
  lemma Longer(ws: seq<Record>, t: seq<Octet>, vs: seq<Record>, u: seq<Octet>)
    requires Encode(ws) + t == Encode(vs) + u && |ws| <= |vs|
    ensures |ws| < |vs| ==> ReadHead(t) == Found(vs[|ws|])
    ensures |ws| == |vs| ==> ws == vs
  {
    PrefixesAgree(ws, t, vs, u);
    if |ws| < |vs| {
      HeadPresent(vs[|ws|..], u);
    } else {
      assert vs[..|ws|] == vs;
    }
  }
}
