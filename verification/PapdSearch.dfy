/**
The pad gain search of the PAPD calibration.  The engine is an oracle: for
every measurement it leaves an arbitrary 32-bit cell, which may depend on how
often it ran before.
*/
module PapdSearch {

  /** Pad gain codes, strongest first. */
  const PAD_GAIN_CODES: seq<nat> := [15, 14, 13, 12, 11, 10, 9, 8, 7, 6, 5, 4, 3, 2, 1]
  const CODES := 15
  const STEPS := 20

  type U32 = n: int | 0 <= n < 0x1_0000_0000

  /** b43_nphy_papd_decode_epsilon: imaginary part above, re part below, thirteen bits each. */
  function DecodeEpsilon(cell: U32): (int, int) {
    var im := cell / 0x2000;
    var re := cell % 0x2000;
    (if re > 0xFFF then re - 0x2000 else re,
     if im > 0xFFF then im - 0x2000 else im)
  }

  function EncodeEpsilon(re: int, im: int): U32
    requires -0x1000 <= re < 0x1000 && -0x1000 <= im < 0x1000
  {
    (if im < 0 then im + 0x2000 else im) * 0x2000 + (if re < 0 then re + 0x2000 else re)
  }

  /** The two fields are two's complement. */
  lemma EpsilonRoundTrip(re: int, im: int)
    requires -0x1000 <= re < 0x1000 && -0x1000 <= im < 0x1000
    ensures DecodeEpsilon(EncodeEpsilon(re, im)) == (re, im)
  {
  }

  /** A cell is clipped exactly if one of its two fields is at an end of its range. */
  lemma ClippedExactly(re: int, im: int)
    requires -0x1000 <= re < 0x1000 && -0x1000 <= im < 0x1000
    ensures Clipped(EncodeEpsilon(re, im)) <==> re in {-0x1000, 0xFFF} || im in {-0x1000, 0xFFF}
  {
    EpsilonRoundTrip(re, im);
  }

  /** A field at either end of its range. */
  predicate Clipped(cell: U32) {
    var (re, im) := DecodeEpsilon(cell);
    re == 4095 || re == -4096 || im == 4095 || im == -4096
  }

  /** The epsilon cell the `i`th measurement leaves, taken at index `x` of the code table. */
  type Engine = (nat, int) -> U32

  /** Whether that measurement is clipped. */
  predicate Clips(engine: Engine, i: nat, x: int) {
    Clipped(engine(i, x))
  }

  /** Each code is one weaker than the one before. */
  function Code(i: nat): (code: nat)
    requires i < CODES
    ensures code == CODES - i
  {
    PAD_GAIN_CODES[i]
  }

  /** Where the `n`th measurement is taken: always one weaker if the first one clips, otherwise always one stronger. */
  function Visit(engine: Engine, start: nat, n: nat): int {
    if Clips(engine, 0, start) then start + n else start - n
  }

  predicate ClipsAt(engine: Engine, start: nat, n: nat) {
    Clips(engine, n, Visit(engine, start, n))
  }

  /**
  A search of `n` measurements that ends on `result`: it goes on inside the table
  until clipping changes, and ends on the clipping one of the two codes where it
  does, or on the end of the table if it never changes.
  */
  ghost predicate Searches(engine: Engine, start: nat, n: nat, result: int) {
    var up := Clips(engine, 0, start);
    && n > 0 && (forall k :: 0 <= k < n ==> 0 <= Visit(engine, start, k) < CODES)
    && (forall k :: 0 <= k < n - 1 ==> (ClipsAt(engine, start, k) <==> up))
    && if ClipsAt(engine, start, n - 1) <==> up then result == Visit(engine, start, n - 1) == (if up then CODES - 1 else 0)
       else result == if up then Visit(engine, start, n - 1) - 1 else Visit(engine, start, n - 1)
  }

  /** The engine clips exactly below index `t`. */
  ghost predicate ClipsBelow(engine: Engine, t: nat) {
    forall i: nat, x: int :: 0 <= x < CODES ==> (Clips(engine, i, x) <==> x < t)
  }

  /**
  b43_nphy_papd_gain_search.  `walk` are the indices measured, in order.  It
  never leaves the table, never turns, and the cap of twenty steps is never
  what ends it.
  */
  method GainSearch(engine: Engine, start: nat) returns (code: nat, result: nat, walk: seq<int>)
    requires start < CODES
    ensures walk != [] && walk[0] == start && |walk| <= CODES < STEPS
    ensures forall k :: 0 <= k < |walk| ==> walk[k] == Visit(engine, start, k)
    ensures Searches(engine, start, |walk|, result)
    ensures result < CODES && code == Code(result) == CODES - result
    ensures forall t: nat :: t <= CODES && ClipsBelow(engine, t) ==> result == if t == 0 then 0 else t - 1
  {
    hide Clips;
    var idx: int := start;
    var first, wasClipped := true, false;
    ghost var up := Clips(engine, 0, start);
    walk := [];
    var i := 0;
    while i < STEPS
      invariant 0 <= i == |walk| <= CODES
      invariant first <==> i == 0
      invariant !first ==> wasClipped == up
      invariant 0 <= idx < CODES && idx == Visit(engine, start, i)
      invariant forall k :: 0 <= k < i ==> 0 <= walk[k] == Visit(engine, start, k) < CODES && (ClipsAt(engine, start, k) <==> up)
    {
      var clipped := Clips(engine, i, idx);
      walk := walk + [idx];

      if !first && clipped != wasClipped {
        if !clipped {
          idx := idx - 1;
        }
        break;
      }

      idx := idx + (if clipped then 1 else -1);
      if idx < 0 || idx > CODES - 1 {
        idx := if idx < 0 then 0 else CODES - 1;
        break;
      }

      first := false;
      wasClipped := clipped;
      i := i + 1;
    }
    result := idx;
    code := Code(idx);
    forall t: nat | t <= CODES && ClipsBelow(engine, t) ensures result == if t == 0 then 0 else t - 1 {
      BelowThreshold(engine, start, |walk|, result, t);
    }
  }

  /** From the top of the table the only way is down the gains. */
  lemma FromTheTop(engine: Engine, n: nat, result: int)
    requires Searches(engine, 0, n, result)
    ensures forall k :: 0 <= k < n ==> Visit(engine, 0, k) == k
  {
    if n > 1 { assert Visit(engine, 0, 1) >= 0; }
  }

  /** Where the search ends, if clipping is downward closed. */
  lemma BelowThreshold(engine: Engine, start: nat, n: nat, result: int, t: nat)
    requires t <= CODES && ClipsBelow(engine, t) && start < CODES && Searches(engine, start, n, result)
    ensures result == if t == 0 then 0 else t - 1
  {
    hide Clips;
    var last := Visit(engine, start, n - 1);
    assert Clips(engine, n - 1, last) <==> last < t;
    assert Clips(engine, 0, start) <==> start < t;
    if n > 1 {
      assert ClipsAt(engine, start, n - 2) <==> Visit(engine, start, n - 2) < t;
    }
  }
}
