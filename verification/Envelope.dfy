/** What travels between the agents: base64 framing of a sealed payload, the
    envelopes inside it, and the transfers of steps 4 and 5 end to end. */
module Envelope {
  import opened Protocol
  import opened Base58

  datatype Result<+T, +E> = Ok(value: T) | Err(error: E)

  // ---------- Base64, section 4 of RFC 4648 ----------

  function Char64(v: int): char
    requires 0 <= v < 64
  {
    if v < 26 then (65 + v) as char
    else if v < 52 then (97 + (v - 26)) as char
    else if v < 62 then (48 + (v - 52)) as char
    else if v == 62 then '+'
    else '/'
  }

  /** The value of a base64 character; None for '=' and everything else. */
  function Value64(ch: char): (v: Option<int>)
    ensures v.Some? ==> 0 <= v.value < 64
  {
    if 'A' <= ch <= 'Z' then Some(ch as int - 65)
    else if 'a' <= ch <= 'z' then Some(ch as int - 97 + 26)
    else if '0' <= ch <= '9' then Some(ch as int - 48 + 52)
    else if ch == '+' then Some(62)
    else if ch == '/' then Some(63)
    else None
  }

  /** The four six-bit values that hold three bytes. */
  function Four(x: byte, y: byte, z: byte): (v: seq<int>)
    ensures |v| == 4 && forall i :: 0 <= i < 4 ==> 0 <= v[i] < 64
  {
    [x / 4, x % 4 * 16 + y / 16, y % 16 * 4 + z / 64, z % 64]
  }

  function Letters(v: seq<int>): string
    requires |v| == 4 && forall i :: 0 <= i < 4 ==> 0 <= v[i] < 64
  {
    [Char64(v[0]), Char64(v[1]), Char64(v[2]), Char64(v[3])]
  }

  /** Three bytes give four characters; one or two left over are padded with '='. */
  function ToBase64(b: bytes): string {
    if |b| == 0 then ""
    else if |b| == 1 then
      [Char64(b[0] / 4), Char64(b[0] % 4 * 16), '=', '=']
    else if |b| == 2 then
      [Char64(b[0] / 4), Char64(b[0] % 4 * 16 + b[1] / 16), Char64(b[1] % 16 * 4), '=']
    else
      Letters(Four(b[0], b[1], b[2])) + ToBase64(b[3..])
  }

  /** The six-bit values in a text, other characters skipped. */
  function Sextets(s: string): (v: seq<int>)
    ensures forall i :: 0 <= i < |v| ==> 0 <= v[i] < 64
  {
    if s == "" then []
    else match Value64(s[0])
         case None => Sextets(s[1..])
         case Some(x) => [x] + Sextets(s[1..])
  }

  /** Four six-bit values are three bytes. */
  function Three(v: seq<int>): bytes
    requires |v| == 4 && forall i :: 0 <= i < 4 ==> 0 <= v[i] < 64
  {
    [v[0] * 4 + v[1] / 16, v[1] % 16 * 16 + v[2] / 4, v[2] % 4 * 64 + v[3]]
  }

  /** Whole bytes out of six-bit values; bits that do not fill a byte are dropped. */
  function Pack(v: seq<int>): bytes
    requires forall i :: 0 <= i < |v| ==> 0 <= v[i] < 64
  {
    if |v| < 2 then []
    else if |v| == 2 then [v[0] * 4 + v[1] / 16]
    else if |v| == 3 then [v[0] * 4 + v[1] / 16, v[1] % 16 * 16 + v[2] / 4]
    else Three(v[..4]) + Pack(v[4..])
  }

  function FromBase64(s: string): bytes {
    Pack(Sextets(s))
  }

  lemma ValueOfChar(v: int)
    requires 0 <= v < 64
    ensures Value64(Char64(v)) == Some(v)
    ensures Char64(v) != '.' && Char64(v) != '='
  {
  }

  lemma SextetsCons(ch: char, s: string)
    ensures Sextets([ch] + s) == match Value64(ch)
                                 case None => Sextets(s)
                                 case Some(x) => [x] + Sextets(s)
  {
    assert ([ch] + s)[1..] == s;
  }

  lemma SextetsOfQuad(a: char, b: char, c: char, d: char, rest: string)
    requires Value64(a).Some? && Value64(b).Some? && Value64(c).Some? && Value64(d).Some?
    ensures Sextets([a, b, c, d] + rest)
         == [Value64(a).value, Value64(b).value, Value64(c).value, Value64(d).value] + Sextets(rest)
  {
    hide Value64, Sextets;
    assert [a, b, c, d] + rest == [a, b] + ([c, d] + rest);
    SextetsOfTwo(c, d, rest);
    SextetsOfTwo(a, b, [c, d] + rest);
  }

  lemma SextetsOfTwo(a: char, b: char, rest: string)
    requires Value64(a).Some? && Value64(b).Some?
    ensures Sextets([a, b] + rest) == [Value64(a).value, Value64(b).value] + Sextets(rest)
  {
    hide Value64, Sextets;
    assert [a, b] + rest == [a] + ([b] + rest);
    SextetsCons(b, rest);
    SextetsCons(a, [b] + rest);
  }

  /** Two numbers packed into one come apart again. */
  lemma Unpack16(hi: int, lo: int)
    requires 0 <= lo < 16
    ensures (hi * 16 + lo) / 16 == hi && (hi * 16 + lo) % 16 == lo
  {
  }

  lemma Unpack4(hi: int, lo: int)
    requires 0 <= lo < 4
    ensures (hi * 4 + lo) / 4 == hi && (hi * 4 + lo) % 4 == lo
  {
  }

  lemma SplitBytes(x: byte, y: byte, z: byte)
    ensures x / 4 * 4 + (x % 4 * 16 + y / 16) / 16 == x
    ensures (x % 4 * 16 + y / 16) % 16 * 16 + (y % 16 * 4 + z / 64) / 4 == y
    ensures (y % 16 * 4 + z / 64) % 4 * 64 + z % 64 == z
  {
    Unpack16(x % 4, y / 16);
    Unpack4(y % 16, z / 64);
  }

  lemma OneLeftOver(x: byte)
    ensures FromBase64(ToBase64([x])) == [x]
  {
    hide Value64, Char64;
    var t := ToBase64([x]);
    ValueOfChar(x / 4);
    ValueOfChar(x % 4 * 16);
    SextetsPadded(t[0], t[1], '=', '=');
    SplitBytes(x, 0, 0);
    assert t == [t[0], t[1], '=', '='];
  }

  lemma TwoLeftOver(x: byte, y: byte)
    ensures FromBase64(ToBase64([x, y])) == [x, y]
  {
    hide Value64, Char64;
    var t := ToBase64([x, y]);
    ValueOfChar(x / 4);
    ValueOfChar(x % 4 * 16 + y / 16);
    ValueOfChar(y % 16 * 4);
    SextetsPadded(t[0], t[1], t[2], '=');
    SplitBytes(x, y, 0);
    assert t == [t[0], t[1], t[2], '='];
  }

  lemma SextetsPadded(a: char, b: char, c: char, d: char)
    requires Value64(a).Some? && Value64(b).Some? && (Value64(c).Some? || c == '=') && d == '='
    ensures Sextets([a, b, c, d])
         == [Value64(a).value, Value64(b).value] + if c == '=' then [] else [Value64(c).value]
  {
    hide Value64;
    PadIsNoValue();
    assert [a, b, c, d] == [a] + ([b] + ([c] + ([d] + "")));
    SextetsCons(d, "");
    SextetsCons(c, [d] + "");
    SextetsCons(b, [c] + ([d] + ""));
    SextetsCons(a, [b] + ([c] + ([d] + "")));
  }

  /** The three bytes that four six-bit values hold. */
  lemma SextetsOfLetters(v: seq<int>, rest: string)
    requires |v| == 4 && forall i :: 0 <= i < 4 ==> 0 <= v[i] < 64
    ensures Sextets(Letters(v) + rest) == v + Sextets(rest)
  {
    hide Value64, Char64, Sextets;
    ValueOfChar(v[0]);
    ValueOfChar(v[1]);
    ValueOfChar(v[2]);
    ValueOfChar(v[3]);
    SextetsOfQuad(Char64(v[0]), Char64(v[1]), Char64(v[2]), Char64(v[3]), rest);
    assert v == [v[0], v[1], v[2], v[3]];
  }

  lemma SextetsOfGroup(b: bytes)
    requires |b| >= 3
    ensures Sextets(ToBase64(b)) == Four(b[0], b[1], b[2]) + Sextets(ToBase64(b[3..]))
  {
    hide Sextets, Four, Letters;
    SextetsOfLetters(Four(b[0], b[1], b[2]), ToBase64(b[3..]));
  }

  lemma PackFour(v: seq<int>)
    requires |v| >= 4
    requires forall i :: 0 <= i < |v| ==> 0 <= v[i] < 64
    ensures Pack(v) == Three(v[..4]) + Pack(v[4..])
  {
    hide Three;
  }

  lemma ThreeBack(x: byte, y: byte, z: byte)
    ensures Three(Four(x, y, z)) == [x, y, z]
  {
    var a, b, c, d := x / 4, x % 4 * 16 + y / 16, y % 16 * 4 + z / 64, z % 64;
    assert Four(x, y, z) == [a, b, c, d];
    SplitBytes(x, y, z);
    hide Four;
    ThreeOf(a, b, c, d);
  }

  lemma ThreeOf(a: int, b: int, c: int, d: int)
    requires 0 <= a < 64 && 0 <= b < 64 && 0 <= c < 64 && 0 <= d < 64
    ensures Three([a, b, c, d]) == [a * 4 + b / 16, b % 16 * 16 + c / 4, c % 4 * 64 + d]
  {
  }

  lemma WholeGroup(b: bytes)
    requires |b| >= 3
    ensures Pack(Sextets(ToBase64(b))) == [b[0], b[1], b[2]] + Pack(Sextets(ToBase64(b[3..])))
  {
    hide *;
    SextetsOfGroup(b);
    var v := Sextets(ToBase64(b));
    PackFour(v);
    ThreeBack(b[0], b[1], b[2]);
    assert v[..4] == Four(b[0], b[1], b[2]);
    assert v[4..] == Sextets(ToBase64(b[3..]));
  }

  /** Decoding what was encoded gives the bytes back. */
  lemma {:induction false} Base64RoundTrip(b: bytes)
    ensures FromBase64(ToBase64(b)) == b
    ensures ToBase64(b) == "" <==> b == []
  {
    hide Value64, Char64, Pack, Sextets, Four;
    if |b| == 0 {
      NothingDecodes();
    } else if |b| == 1 {
      OneLeftOver(b[0]);
      assert b == [b[0]];
    } else if |b| == 2 {
      TwoLeftOver(b[0], b[1]);
      assert b == [b[0], b[1]];
    } else {
      WholeGroup(b);
      Base64RoundTrip(b[3..]);
      assert b == [b[0], b[1], b[2]] + b[3..];
    }
  }

  lemma NothingDecodes()
    ensures FromBase64("") == []
  {
  }

  lemma {:induction false} NoDotInBase64(b: bytes)
    ensures forall i :: 0 <= i < |ToBase64(b)| ==> ToBase64(b)[i] != '.'
  {
    if |b| >= 3 {
      NoDotInBase64(b[3..]);
    }
  }

  lemma PadIsNoValue()
    ensures Value64('=') == None
  {
  }

  // ---------- Framing ----------

  datatype EncryptedPayload = EncryptedPayload(ciphertext: bytes, nonce: bytes)

  datatype FrameError = MissingSeparator | EmptySegment | BadNonceLength

  const NONCE_LENGTH := 24
  const KEY_LENGTH := 32

  function EncodePayload(p: EncryptedPayload): string {
    ToBase64(p.nonce) + "." + ToBase64(p.ciphertext)
  }

  /** Index of the first '.', or the length of the text. */
  function DotIndex(s: string): (i: nat)
    ensures i <= |s|
    ensures i < |s| ==> s[i] == '.'
    ensures forall j :: 0 <= j < i ==> s[j] != '.'
  {
    if s == "" || s[0] == '.' then 0 else 1 + DotIndex(s[1..])
  }

  function DecodePayload(s: string): Result<EncryptedPayload, FrameError> {
    var idx := DotIndex(s);
    if idx == |s| then Err(MissingSeparator)
    else if idx == 0 || idx + 1 == |s| then Err(EmptySegment)
    else
      var nonce := FromBase64(s[..idx]);
      if |nonce| != NONCE_LENGTH then Err(BadNonceLength)
      else Ok(EncryptedPayload(FromBase64(s[idx + 1..]), nonce))
  }

  /** A frame decodes to what was encoded exactly when the nonce has 24 bytes and
      the ciphertext is not empty. */
  lemma FrameRoundTrip(p: EncryptedPayload)
    ensures DecodePayload(EncodePayload(p)) == Ok(p) <==> |p.nonce| == NONCE_LENGTH && p.ciphertext != []
  {
    hide ToBase64, FromBase64;
    var s := EncodePayload(p);
    var n := ToBase64(p.nonce);
    Base64RoundTrip(p.nonce);
    Base64RoundTrip(p.ciphertext);
    NoDotInBase64(p.nonce);
    assert s[|n|] == '.';
    assert forall j :: 0 <= j < |n| ==> s[j] == n[j];
    assert DotIndex(s) == |n|;
    assert s[..|n|] == n;
    assert s[|n| + 1..] == ToBase64(p.ciphertext);
  }

  // ---------- Envelopes ----------

  datatype Envelope =
    | Tower(filename: string, contentB64: string)
    | Identity(pubkey: string, secretKeyBytes: bytes)
    | VotingConfirmed(identityPubkey: string)
    | OtherKind

  datatype Kind = TowerKind | IdentityKind | VotingConfirmedKind | UnknownKind

  function KindOf(e: Envelope): Kind {
    match e
    case Tower(_, _) => TowerKind
    case Identity(_, _) => IdentityKind
    case VotingConfirmed(_) => VotingConfirmedKind
    case OtherKind => UnknownKind
  }

  /** Library code: the AEAD cipher, SHA-256, JSON, and the public half of a key. */
  datatype Suite = Suite(
    seal: (bytes, bytes, bytes) -> bytes,
    unseal: (bytes, bytes, bytes) -> Option<bytes>,
    hash: bytes -> string,
    stringify: Envelope -> bytes,
    parse: bytes -> Option<Envelope>,
    publicHalf: bytes -> bytes)

  /** Opening inverts sealing, parsing inverts printing, a sealed text is not empty. */
  ghost predicate Sound(c: Suite) {
    && (forall k, n, p :: c.seal(k, n, p) != [] && c.unseal(k, n, c.seal(k, n, p)) == Some(p))
    && (forall e :: c.parse(c.stringify(e)) == Some(e))
  }

  /** A relayed payload: the frame and the hash declared for its content. */
  datatype Sealed = Sealed(payload: string, hash: string)

  function SealEnvelope(c: Suite, key: bytes, nonce: bytes, e: Envelope): string {
    EncodePayload(EncryptedPayload(c.seal(key, nonce, c.stringify(e)), nonce))
  }

  /** Unframe, decrypt and parse; None is any of the exceptions on the way. */
  function Peek(c: Suite, key: bytes, payload: string): Option<Envelope> {
    match DecodePayload(payload)
    case Err(_) => None
    case Ok(p) =>
      if |key| != KEY_LENGTH then None
      else match c.unseal(key, p.nonce, p.ciphertext)
           case None => None
           case Some(plain) => c.parse(plain)
  }

  lemma PeekOfSeal(c: Suite, key: bytes, nonce: bytes, e: Envelope)
    requires Sound(c) && |key| == KEY_LENGTH && |nonce| == NONCE_LENGTH
    ensures Peek(c, key, SealEnvelope(c, key, nonce, e)) == Some(e)
  {
    hide DecodePayload, EncodePayload;
    FrameRoundTrip(EncryptedPayload(c.seal(key, nonce, c.stringify(e)), nonce));
  }

  // ---------- Steps 4, 5 and 8, sender and receiver ----------

  const SECRET_KEY_LENGTH := 64

  /** Throws (None) unless the secret key has 64 bytes. */
  function DerivePubkey(c: Suite, secret: bytes): Option<string> {
    if |secret| != SECRET_KEY_LENGTH then None else Some(Encode(c.publicHalf(secret)))
  }

  function TowerFilename(pubkey: string): string {
    "tower-1_9-" + pubkey + ".bin"
  }

  function SendTower(c: Suite, key: bytes, nonce: bytes, content: bytes, pubkey: string): Sealed {
    Sealed(SealEnvelope(c, key, nonce, Tower(TowerFilename(pubkey), ToBase64(content))), c.hash(content))
  }

  function SendIdentity(c: Suite, key: bytes, nonce: bytes, secret: bytes, pubkey: string): Sealed {
    Sealed(SealEnvelope(c, key, nonce, Identity(pubkey, secret)), c.hash(secret))
  }

  function SendVotingConfirmed(c: Suite, key: bytes, nonce: bytes, pubkey: string): Sealed {
    Sealed(SealEnvelope(c, key, nonce, VotingConfirmed(pubkey)), c.hash(c.stringify(VotingConfirmed(pubkey))))
  }

  datatype ReceiveError = Unreadable | WrongKind | HashMismatch | PubkeyMismatch | BadKeyLength

  datatype StoredTower = StoredTower(filename: string, content: bytes)
  datatype StoredKey = StoredKey(pubkey: string, secret: bytes)

  /** What the target stores for a tower payload, or why it refuses. */
  function ReceiveTower(c: Suite, key: bytes, p: Sealed): Result<StoredTower, ReceiveError> {
    match Peek(c, key, p.payload)
    case None => Err(Unreadable)
    case Some(e) =>
      if !e.Tower? then Err(WrongKind)
      else
        var content := FromBase64(e.contentB64);
        if c.hash(content) != p.hash then Err(HashMismatch)
        else Ok(StoredTower(e.filename, content))
  }

  function ReceiveIdentity(c: Suite, key: bytes, p: Sealed): Result<StoredKey, ReceiveError> {
    match Peek(c, key, p.payload)
    case None => Err(Unreadable)
    case Some(e) =>
      if !e.Identity? then Err(WrongKind)
      else if c.hash(e.secretKeyBytes) != p.hash then Err(HashMismatch)
      else match DerivePubkey(c, e.secretKeyBytes)
           case None => Err(BadKeyLength)
           case Some(derived) =>
             if derived != e.pubkey then Err(PubkeyMismatch)
             else Ok(StoredKey(e.pubkey, e.secretKeyBytes))
  }

  /** Relayed untouched, the tower is stored byte for byte under the source's name. */
  lemma TowerTransfer(c: Suite, key: bytes, nonce: bytes, content: bytes, pubkey: string)
    requires Sound(c) && |key| == KEY_LENGTH && |nonce| == NONCE_LENGTH
    ensures ReceiveTower(c, key, SendTower(c, key, nonce, content, pubkey))
         == Ok(StoredTower("tower-1_9-" + pubkey + ".bin", content))
  {
    hide Peek, SealEnvelope, ToBase64, FromBase64;
    PeekOfSeal(c, key, nonce, Tower(TowerFilename(pubkey), ToBase64(content)));
    Base64RoundTrip(content);
  }

  /** The identity sent with its own public key is stored byte for byte; sent with
      any other public key, or not 64 bytes long, it is refused. */
  lemma IdentityTransfer(c: Suite, key: bytes, nonce: bytes, secret: bytes, pubkey: string)
    requires Sound(c) && |key| == KEY_LENGTH && |nonce| == NONCE_LENGTH
    ensures var r := ReceiveIdentity(c, key, SendIdentity(c, key, nonce, secret, pubkey));
            && (r.Ok? <==> DerivePubkey(c, secret) == Some(pubkey))
            && (r.Ok? ==> r == Ok(StoredKey(pubkey, secret)))
  {
    hide Peek, SealEnvelope;
    PeekOfSeal(c, key, nonce, Identity(pubkey, secret));
  }

  /** Whatever arrives, a payload that is stored matches the declared hash; with a
      hash that has no collisions, no other content could have been declared. */
  lemma StoredMatchesHash(c: Suite, key: bytes, p: Sealed, declared: bytes)
    requires p.hash == c.hash(declared)
    requires forall a, b :: c.hash(a) == c.hash(b) ==> a == b
    ensures ReceiveTower(c, key, p).Ok? ==> ReceiveTower(c, key, p).value.content == declared
    ensures ReceiveIdentity(c, key, p).Ok? ==> ReceiveIdentity(c, key, p).value.secret == declared
  {
    hide Peek, FromBase64;
  }
}
