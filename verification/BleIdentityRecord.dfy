/** The identity characteristic: what is encoded, what decodes from it, and how a name is cut to fit. */
module BleIdentityRecord {
  import opened Bytes
  import opened Wrappers

  const VERSION: byte := 1
  const MAX_ENCODED_LENGTH: nat := 128
  const MAX_TOKEN_LENGTH: nat := 32
  const HEADER_LENGTH: nat := 5
  const DISCOVERY_ID_LENGTH: nat := 16

  /** A character as its UTF-8 bytes. */
  type Name = seq<seq<byte>>

  datatype Contents = Contents(token: seq<byte>, displayName: seq<byte>, psm: nat, discoveryId: seq<byte>)

  function Flat(name: Name): seq<byte>
    decreases |name|
  {
    if name == [] then [] else Flat(name[..|name| - 1]) + name[|name| - 1]
  }

  function Clamped(token: seq<byte>): seq<byte> {
    if |token| > MAX_TOKEN_LENGTH then token[..MAX_TOKEN_LENGTH] else token
  }

  function Flags(psm: nat, discoveryId: seq<byte>): byte {
    (if psm != 0 then 1 else 0) + if |discoveryId| == DISCOVERY_ID_LENGTH then 2 else 0
  }

  /** Everything before the name. */
  function Head(token: seq<byte>, psm: nat, discoveryId: seq<byte>): (h: seq<byte>)
    ensures |h| <= HEADER_LENGTH + MAX_TOKEN_LENGTH + 1 + DISCOVERY_ID_LENGTH
  {
    [VERSION, Flags(psm, discoveryId), psm / 256 % 256, psm % 256, |Clamped(token)|] + Clamped(token)
    + if |discoveryId| == DISCOVERY_ID_LENGTH then [|discoveryId|] + discoveryId else []
  }

  /** How many whole characters fit in `room` bytes, dropping from the end. */
  function Fitting(name: Name, room: nat): (k: nat)
    ensures k <= |name|
    decreases |name|
  {
    if |Flat(name)| <= room then |name| else Fitting(name[..|name| - 1], room)
  }

  lemma {:induction false} FlatGrows(name: Name, k: nat)
    requires k <= |name|
    ensures |Flat(name[..k])| <= |Flat(name)|
    decreases |name|
  {
    if k < |name| {
      FlatGrows(name[..|name| - 1], k);
      assert name[..|name| - 1][..k] == name[..k];
    } else {
      assert name[..k] == name;
    }
  }

  /** It is the longest prefix that fits. */
  lemma {:induction false} FittingIsLongest(name: Name, room: nat, k: nat)
    requires k <= |name|
    ensures |Flat(name[..Fitting(name, room)])| <= room
    ensures k > Fitting(name, room) ==> |Flat(name[..k])| > room
    decreases |name|
  {
    if |Flat(name)| <= room {
      assert name[..|name|] == name;
    } else {
      var front := name[..|name| - 1];
      FittingIsLongest(front, room, if k < |name| then k else |name| - 1);
      assert front[..Fitting(front, room)] == name[..Fitting(front, room)];
      if k < |name| {
        assert front[..k] == name[..k];
      } else {
        assert name[..k] == name;
      }
    }
  }

  /** The record: the head, and the whole characters there is room for. */
  function Record(token: seq<byte>, name: Name, psm: nat, discoveryId: seq<byte>): (r: seq<byte>)
  {
    var head := Head(token, psm, discoveryId);
    head + Flat(name[..Fitting(name, MAX_ENCODED_LENGTH - |head|)])
  }

  method Encode(token: seq<byte>, displayName: Name, psm: nat, discoveryId: seq<byte>) returns (out: seq<byte>)
    ensures out == Record(token, displayName, psm, discoveryId)
  {
    hide Flat, Fitting;
    var clamped := Clamped(token);
    var hasDiscoveryId := |discoveryId| == DISCOVERY_ID_LENGTH;
    var flags: byte := 0;
    if psm != 0 { flags := flags + 1; }
    if hasDiscoveryId { flags := flags + 2; }
    out := [VERSION, flags, psm / 256 % 256, psm % 256, |clamped|];
    out := out + clamped;
    if hasDiscoveryId { out := out + ([|discoveryId|] + discoveryId); }
    assert out == Head(token, psm, discoveryId);
    ghost var room: nat := MAX_ENCODED_LENGTH - |out|;
    ghost var head := out;
    var name := displayName;
    while name != []
      invariant out == head && name <= displayName
      invariant Fitting(name, room) == Fitting(displayName, room)
      decreases |name|
    {
      var encoded := Flat(name);
      FittingStep(name, room);
      if |out| + |encoded| <= MAX_ENCODED_LENGTH {
        out := out + encoded;
        assert displayName[..|name|] == name;
        return;
      }
      name := name[..|name| - 1];
    }
    FittingStep(name, room);
    assert displayName[..0] == [];
    assert out + [] == out;
  }

  lemma FittingStep(name: Name, room: nat)
    ensures |Flat(name)| <= room ==> Fitting(name, room) == |name|
    ensures name != [] && |Flat(name)| > room ==> Fitting(name, room) == Fitting(name[..|name| - 1], room)
    ensures Flat([]) == []
  {
  }

  // -- decoding --------------------------------------------------------------

  type Utf8 = seq<byte> -> bool

  function Text(utf8: Utf8, bytes: seq<byte>): seq<byte> {
    if utf8(bytes) then bytes else []
  }

  function DecodeRest(utf8: Utf8, token: seq<byte>, flags: byte, psm: nat, bytes: seq<byte>): Option<Contents> {
    var published := if flags % 2 == 1 then psm else 0;
    if flags / 2 % 2 == 0 then Some(Contents(token, Text(utf8, bytes), published, []))
    else if bytes == [] || bytes[0] as nat != DISCOVERY_ID_LENGTH || 1 + DISCOVERY_ID_LENGTH > |bytes| then None
    else
      var (id, name) := (bytes[1..1 + DISCOVERY_ID_LENGTH], bytes[1 + DISCOVERY_ID_LENGTH..]);
      Some(Contents(token, Text(utf8, name), published, Text(utf8, id)))
  }

  function Decoded(utf8: Utf8, bytes: seq<byte>): Option<Contents> {
    if |bytes| < HEADER_LENGTH || |bytes| > MAX_ENCODED_LENGTH || bytes[0] != VERSION then None
    else if bytes[4] as nat > MAX_TOKEN_LENGTH || HEADER_LENGTH + bytes[4] > |bytes| then None
    else DecodeRest(utf8, bytes[HEADER_LENGTH..HEADER_LENGTH + bytes[4]], bytes[1], (bytes[2] as nat) * 256 + bytes[3],
                    bytes[HEADER_LENGTH + bytes[4]..])
  }

  /** Advances a cursor over bytes a peer chose, checking each bound first. */
  method Decode(utf8: Utf8, bytes: seq<byte>) returns (r: Option<Contents>)
    ensures r == Decoded(utf8, bytes)
  {
    if |bytes| < HEADER_LENGTH || |bytes| > MAX_ENCODED_LENGTH { return None; }
    if bytes[0] != VERSION { return None; }
    var flags := bytes[1];
    var psm := (bytes[2] as nat) * 256 + bytes[3];
    var tokenLength: nat := bytes[4];
    if tokenLength > MAX_TOKEN_LENGTH || HEADER_LENGTH + tokenLength > |bytes| { return None; }
    var token := bytes[HEADER_LENGTH..HEADER_LENGTH + tokenLength];
    var cursor := HEADER_LENGTH + tokenLength;
    ghost var rest := bytes[cursor..];
    var discoveryId: seq<byte> := [];
    if flags / 2 % 2 != 0 {
      if cursor >= |bytes| { return None; }
      var idLength: nat := bytes[cursor];
      cursor := cursor + 1;
      if idLength != DISCOVERY_ID_LENGTH || cursor + idLength > |bytes| { return None; }
      discoveryId := Text(utf8, bytes[cursor..cursor + idLength]);
      assert rest[1..1 + DISCOVERY_ID_LENGTH] == bytes[cursor..cursor + idLength];
      cursor := cursor + idLength;
      assert rest[1 + DISCOVERY_ID_LENGTH..] == bytes[cursor..];
    }
    return Some(Contents(token, Text(utf8, bytes[cursor..]), if flags % 2 == 1 then psm else 0, discoveryId));
  }

  // -- the trip --------------------------------------------------------------

  /** Whole characters are valid text, and a published id is. */
  ghost predicate Readable(utf8: Utf8, name: Name, discoveryId: seq<byte>) {
    && (forall k :: 0 <= k <= |name| ==> utf8(Flat(name[..k])))
    && utf8(discoveryId)
  }

  lemma RecordShape(token: seq<byte>, name: Name, psm: nat, discoveryId: seq<byte>)
      returns (rest: seq<byte>, shown: seq<byte>)
    requires psm < 65536
    ensures
      var bytes := Record(token, name, psm, discoveryId);
      var t := Clamped(token);
      && HEADER_LENGTH + |t| <= |bytes| <= MAX_ENCODED_LENGTH
      && bytes[0] == VERSION && bytes[1] == Flags(psm, discoveryId) && (bytes[2] as nat) * 256 + bytes[3] == psm
      && bytes[4] as nat == |t| && bytes[HEADER_LENGTH..HEADER_LENGTH + |t|] == t
      && bytes[HEADER_LENGTH + |t|..] == rest
      && shown == Flat(name[..Fitting(name, MAX_ENCODED_LENGTH - |Head(token, psm, discoveryId)|)])
      && rest == (if |discoveryId| == DISCOVERY_ID_LENGTH then [|discoveryId|] + discoveryId else []) + shown
  {
    hide Flat, Fitting;
    var head := Head(token, psm, discoveryId);
    FittingIsLongest(name, MAX_ENCODED_LENGTH - |head|, 0);
    shown := Flat(name[..Fitting(name, MAX_ENCODED_LENGTH - |head|)]);
    rest := (if |discoveryId| == DISCOVERY_ID_LENGTH then [|discoveryId|] + discoveryId else []) + shown;
    var fixed: seq<byte> := [VERSION, Flags(psm, discoveryId), psm / 256 % 256, psm % 256, |Clamped(token)|];
    assert Record(token, name, psm, discoveryId) == fixed + Clamped(token) + rest;
  }

  /**
    The record decodes to the clamped token, the PSM, the id if it has the right length and
    otherwise none, and the longest prefix of whole characters of the name that fits.
   */
  lemma RecordRoundTrip(utf8: Utf8, token: seq<byte>, name: Name, psm: nat, discoveryId: seq<byte>)
    requires psm < 65536 && Readable(utf8, name, discoveryId)
    ensures
      var k := Fitting(name, MAX_ENCODED_LENGTH - |Head(token, psm, discoveryId)|);
      && |Record(token, name, psm, discoveryId)| <= MAX_ENCODED_LENGTH
      && Decoded(utf8, Record(token, name, psm, discoveryId))
           == Some(Contents(Clamped(token), Flat(name[..k]), psm,
                            if |discoveryId| == DISCOVERY_ID_LENGTH then discoveryId else []))
      && forall m :: k < m <= |name| ==> |Head(token, psm, discoveryId)| + |Flat(name[..m])| > MAX_ENCODED_LENGTH
  {
    hide Flat, Fitting, Head, Record;
    var room := MAX_ENCODED_LENGTH - |Head(token, psm, discoveryId)|;
    var rest, shown := RecordShape(token, name, psm, discoveryId);
    if |discoveryId| == DISCOVERY_ID_LENGTH {
      assert rest[1..1 + DISCOVERY_ID_LENGTH] == discoveryId && rest[1 + DISCOVERY_ID_LENGTH..] == shown;
    } else {
      assert rest == shown;
    }
    forall m | Fitting(name, room) < m <= |name| ensures |Flat(name[..m])| > room {
      FittingIsLongest(name, room, m);
    }
  }
}
