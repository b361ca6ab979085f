/** The transmit gain word of N-PHY revision 7 and later and its five fields. */
module TxGains {

  datatype Gains = Gains(lpf: nat, txgm: nat, pga: nat, pad: nat, ipa: nat) {
    predicate InRange() {
      lpf < 2 && txgm < 8 && pga < 16 && pad < 32 && ipa < 8
    }
  }

  function Unpack(word: nat): Gains {
    var pad := word / 8;
    var pga := pad / 32;
    var txgm := pga / 16;
    var lpf := txgm / 8;
    Gains(lpf % 2, txgm % 8, pga % 16, pad % 32, word % 8)
  }

  function Pack(g: Gains): nat {
    (((g.lpf * 8 + g.txgm) * 16 + g.pga) * 32 + g.pad) * 8 + g.ipa
  }

  /** The calibrations take a word apart and put it together again: nothing is lost either way. */
  lemma GainRoundTrip(word: nat, g: Gains)
    requires word < 0x10000 && g.InRange()
    ensures Pack(Unpack(word)) == word && Unpack(word).InRange()
    ensures Unpack(Pack(g)) == g && Pack(g) < 0x10000
  {
    PackUnpack(word);
    UnpackPack(g);
  }

  lemma PackUnpack(word: nat)
    requires word < 0x10000
    ensures Pack(Unpack(word)) == word && Unpack(word).InRange()
  {
    var pad := word / 8;
    var pga := pad / 32;
    var txgm := pga / 16;
    var lpf := txgm / 8;
    assert lpf < 2;
    assert txgm == lpf * 8 + txgm % 8;
    assert pga == txgm * 16 + pga % 16;
    assert pad == pga * 32 + pad % 32;
    assert word == pad * 8 + word % 8;
  }

  lemma UnpackPack(g: Gains)
    requires g.InRange()
    ensures Unpack(Pack(g)) == g && Pack(g) < 0x10000
  {
    var txgm := g.lpf * 8 + g.txgm;
    var pga := txgm * 16 + g.pga;
    var pad := pga * 32 + g.pad;
    Digit(g.lpf, g.txgm, 8);
    Digit(txgm, g.pga, 16);
    Digit(pga, g.pad, 32);
    Digit(pad, g.ipa, 8);
  }

  lemma Digit(high: nat, low: nat, base: nat)
    requires base in {8, 16, 32} && low < base
    ensures (high * base + low) / base == high && (high * base + low) % base == low
  {
    if base == 8 {
      assert (high * 8 + low) / 8 == high;
    } else if base == 16 {
      assert (high * 16 + low) / 16 == high;
    } else {
      assert (high * 32 + low) / 32 == high;
    }
  }
}
