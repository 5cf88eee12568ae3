/**
  The bytes that `computeTranscript` hashes.  Equal transcript pre-images come from equal
  fields: every field but the version has a fixed width and the version is one byte.
 */
module TranscriptBytes {
  import opened Bytes

  function Preimage(prologue: seq<byte>, version: nat, ephemeralI: seq<byte>, nonceI: seq<byte>,
                    ephemeralR: seq<byte>, nonceR: seq<byte>): seq<byte> {
    prologue + [version % 256] + [1] + ephemeralI + nonceI + [2] + ephemeralR + nonceR
  }

  /** Equal pre-images force equal contributions from both sides, in both roles. */
  lemma PreimageInjective(prologue: seq<byte>, v: nat, eI: seq<byte>, nI: seq<byte>, eR: seq<byte>, nR: seq<byte>,
                          v': nat, eI': seq<byte>, nI': seq<byte>, eR': seq<byte>, nR': seq<byte>)
    requires v < 256 && v' < 256
    requires |eI| == |eI'| == |eR| == |eR'| == 32
    requires |nI| == |nI'| == |nR| == |nR'| == 16
    requires Preimage(prologue, v, eI, nI, eR, nR) == Preimage(prologue, v', eI', nI', eR', nR')
    ensures v == v' && eI == eI' && nI == nI' && eR == eR' && nR == nR'
  {
    var p := Preimage(prologue, v, eI, nI, eR, nR);
    var p' := Preimage(prologue, v', eI', nI', eR', nR');
    var n := |prologue|;
    assert p[n] == v % 256 && p'[n] == v' % 256;
    assert p[n+2..n+34] == eI && p'[n+2..n+34] == eI';
    assert p[n+34..n+50] == nI && p'[n+34..n+50] == nI';
    assert p[n+51..n+83] == eR && p'[n+51..n+83] == eR';
    assert p[n+83..n+99] == nR && p'[n+83..n+99] == nR';
  }
}
