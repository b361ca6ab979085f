/**
The carrier-search hold.  A counter says how many brackets hold the receiver
deaf; the first one in saves the classifier bits and both clip thresholds and
sets them to wait-only and 0xFFFF, the last one out puts them back.
*/
module CarrierSearch {
  import opened Pairs

  const COUNT_END := 0x1_0000_0000
  const WAIT_ONLY: bv3 := 4
  const CLIP_OFF := Pair(0xFFFF, 0xFFFF)

  /** deaf_count and the saved state, with the registers they guard. */
  datatype Hold = Hold(count: nat, savedClass: bv3, savedClip: Pair<int>, bits: bv3, clip: Pair<int>)

  /** b43_nphy_classifier: the new classifier bits. */
  function Classifier(bits: bv3, mask: bv3, val: bv3): bv3 {
    (bits & !mask) | (val & mask)
  }

  lemma ClassifierMasks(bits: bv3, val: bv3)
    ensures Classifier(bits, 0, val) == bits && Classifier(bits, 7, val) == val
  {
  }

  function Enter(h: Hold): Hold {
    var count := if h.count + 1 == COUNT_END then 0 else h.count + 1;
    if h.count == 0 then Hold(count, h.bits, h.clip, WAIT_ONLY, CLIP_OFF)
    else h.(count := count)
  }

  function Exit(h: Hold): Hold {
    var count := if h.count == 0 then COUNT_END - 1 else h.count - 1;
    if count == 0 then h.(count := count, bits := h.savedClass, clip := h.savedClip)
    else h.(count := count)
  }

  datatype Event = In | Out

  function Step(h: Hold, e: Event): Hold {
    match e case In => Enter(h) case Out => Exit(h)
  }

  function Run(h: Hold, es: seq<Event>): Hold
    decreases |es|
  {
    if es == [] then h else Run(Step(h, es[0]), es[1..])
  }

  /** Enters and exits that never leave a bracket nobody entered, at most 2^32 - 1 deep. */
  ghost predicate Nested(depth: nat, es: seq<Event>)
    decreases |es|
  {
    es == [] || (
      match es[0]
      case In => depth + 1 < COUNT_END && Nested(depth + 1, es[1..])
      case Out => depth > 0 && Nested(depth - 1, es[1..]))
  }

  function Depth(depth: int, es: seq<Event>): int
    decreases |es|
  {
    if es == [] then depth else Depth(if es[0].In? then depth + 1 else depth - 1, es[1..])
  }

  /** What holds at depth `d` of brackets whose outermost entry found `bits` and `clip`. */
  ghost predicate Held(h: Hold, d: nat, bits: bv3, clip: Pair<int>) {
    && h.count == d
    && (d == 0 ==> h.bits == bits && h.clip == clip)
    && (d > 0 ==> h.bits == WAIT_ONLY && h.clip == CLIP_OFF && h.savedClass == bits && h.savedClip == clip)
  }

  /**
  For every nesting of enters and exits: after the outermost exit the classifier
  and the thresholds are those before the outermost enter, and at every depth
  inside they are wait-only and off.
  */
  lemma {:induction false} NestedHolds(h: Hold, d: nat, es: seq<Event>, bits: bv3, clip: Pair<int>)
    requires Held(h, d, bits, clip) && Nested(d, es)
    ensures Depth(d, es) >= 0 && Held(Run(h, es), Depth(d, es), bits, clip)
    decreases |es|
  {
    if es != [] {
      var d' := if es[0].In? then d + 1 else d - 1;
      NestedHolds(Step(h, es[0]), d', es[1..], bits, clip);
    }
  }

  /** Inside an outer bracket a complete inner nesting changes nothing at all, saved state included. */
  lemma {:induction false} InnerBracketsSaveNothing(h: Hold, d: nat, es: seq<Event>)
    requires h.count == d > 0 && Nested(d, es)
    requires forall n :: 0 <= n <= |es| ==> Depth(d, es[..n]) > 0
    ensures Depth(d, es) > 0 && Run(h, es) == h.(count := Depth(d, es))
    decreases |es|
  {
    assert es[..|es|] == es;
    if es != [] {
      var d' := if es[0].In? then d + 1 else d - 1;
      assert es[..1] == [es[0]];
      assert Depth(d, es[..1]) == Depth(d', []) == d';
      forall n | 0 <= n <= |es[1..]| ensures Depth(d', es[1..][..n]) > 0 {
        assert es[..n + 1][1..] == es[1..][..n] && es[..n + 1][0] == es[0];
        assert Depth(d, es[..n + 1]) > 0;
      }
      InnerBracketsSaveNothing(Step(h, es[0]), d', es[1..]);
    }
  }

  /** One bracket too deep the counter wraps, and the next enter saves the deaf state over the real one. */
  lemma TooDeep(h: Hold)
    requires Held(h, 0xFFFF_FFFF, h.savedClass, h.savedClip)
    ensures var h' := Enter(Enter(h)); h'.savedClass == WAIT_ONLY && h'.savedClip == CLIP_OFF
  {
  }

  /** What a balanced stretch of code leaves of the hold. */
  ghost predicate Kept(h: Hold, h': Hold) {
    && h'.count == h.count && h'.bits == h.bits && h'.clip == h.clip
    && (h.count > 0 ==> h'.savedClass == h.savedClass && h'.savedClip == h.savedClip)
  }

  /** A bracket around balanced code is balanced. */
  lemma BracketKeeps(h: Hold, h1: Hold)
    requires h.count + 1 < COUNT_END && Kept(Enter(h), h1)
    ensures Kept(h, Exit(h1))
  {
  }
}
