/** The formats on the wire, said outright: standard base64 with its test vectors, the
    frame, and the kind each sender's payload is read as. */
module EnvelopeLaws {
  import opened Protocol
  import opened Base58
  import opened Envelope
  import opened PayloadQueue

  const STANDARD: string :=
    "ABCDEFGHIJKLM" + "NOPQRSTUVWXYZ" + "abcdefghijklm" + "nopqrstuvwxyz" + "0123456789+/"

  /** Six-bit values are written in the standard alphabet (table 1 of RFC 4648). */
  lemma Alphabet64(v: int)
    requires 0 <= v < 64
    ensures |STANDARD| == 64 && Char64(v) == STANDARD[v]
  {
    Ranges64("ABCDEFGHIJKLM", 65);
    Ranges64("NOPQRSTUVWXYZ", 78);
    Ranges64("abcdefghijklm", 97);
    Ranges64("nopqrstuvwxyz", 110);
    Ranges64("0123456789", 48);
  }

  lemma Ranges64(s: string, from: int)
    requires (s == "ABCDEFGHIJKLM" && from == 65) || (s == "NOPQRSTUVWXYZ" && from == 78)
             || (s == "abcdefghijklm" && from == 97) || (s == "nopqrstuvwxyz" && from == 110)
             || (s == "0123456789" && from == 48)
    ensures Ascending(s, from)
  {
  }

  /** The test vectors of section 10 of RFC 4648. */
  lemma TestVectors()
    ensures ToBase64([]) == "" && ToBase64([102]) == "Zg==" && ToBase64([102, 111]) == "Zm8="
    ensures ToBase64([102, 111, 111]) == "Zm9v" && ToBase64([102, 111, 111, 98]) == "Zm9vYg=="
    ensures ToBase64([102, 111, 111, 98, 97]) == "Zm9vYmE=" && ToBase64([102, 111, 111, 98, 97, 114]) == "Zm9vYmFy"
  {
    var foo: bytes := [102, 111, 111];
    GroupThen(foo, []);
    GroupThen(foo, [98]);
    GroupThen(foo, [98, 97]);
    GroupThen(foo, [98, 97, 114]);
    GroupThen([98, 97, 114], []);
    assert foo + [] == foo && foo + [98] == [102, 111, 111, 98] && foo + [98, 97] == [102, 111, 111, 98, 97];
    assert foo + [98, 97, 114] == [102, 111, 111, 98, 97, 114];
    var bar: bytes := [98, 97, 114];
    assert bar + [] == bar;
    Singles();
  }

  lemma GroupThen(three: bytes, rest: bytes)
    requires |three| == 3
    ensures ToBase64(three + rest) == Letters(Four(three[0], three[1], three[2])) + ToBase64(rest)
  {
    hide Letters, Four;
    assert (three + rest)[3..] == rest;
  }

  lemma Singles()
    ensures ToBase64([102]) == "Zg==" && ToBase64([102, 111]) == "Zm8="
    ensures ToBase64([98]) == "Yg==" && ToBase64([98, 97]) == "YmE="
    ensures Letters(Four(102, 111, 111)) == "Zm9v" && Letters(Four(98, 97, 114)) == "YmFy"
  {
  }

  /** Four characters for every three bytes begun. */
  lemma {:induction false} EncodedLength(b: bytes)
    ensures |ToBase64(b)| == (|b| + 2) / 3 * 4
  {
    hide Four, Char64, Letters;
    if |b| >= 3 {
      var less := b[3..];
      EncodedLength(less);
      GroupLength(b);
      assert |b| + 2 == (|less| + 2) + 3;
    }
  }

  lemma GroupLength(b: bytes)
    requires |b| >= 3
    ensures |ToBase64(b)| == 4 + |ToBase64(b[3..])|
  {
    hide Four, Char64;
  }

  /** A frame is the nonce, a dot and the ciphertext, each in base64. */
  lemma FrameFormat(p: EncryptedPayload)
    ensures EncodePayload(p) == ToBase64(p.nonce) + "." + ToBase64(p.ciphertext)
    ensures FrameRead(EncodePayload(p), |ToBase64(p.nonce)|)
  {
    hide ToBase64;
    var n := ToBase64(p.nonce);
    NoDotInBase64(p.nonce);
    assert EncodePayload(p)[|n|] == '.';
    assert forall j :: 0 <= j < |n| ==> EncodePayload(p)[j] == n[j];
  }

  /** The first dot of the text stands at `i`. */
  predicate FrameRead(s: string, i: nat) {
    i < |s| && s[i] == '.' && forall j :: 0 <= j < i ==> s[j] != '.'
  }

  /** A text is refused without a dot, with nothing before or after the first one, or
      with a nonce that has not 24 bytes; otherwise it is read around that dot. */
  lemma DecodesExactly(s: string, i: nat)
    ensures '.' !in s <==> DecodePayload(s) == Err(MissingSeparator)
    ensures FrameRead(s, i) ==>
              DecodePayload(s) ==
              if i == 0 || i + 1 == |s| then Err(EmptySegment)
              else if |FromBase64(s[..i])| != 24 then Err(BadNonceLength)
              else Ok(EncryptedPayload(FromBase64(s[i + 1..]), FromBase64(s[..i])))
  {
    hide FromBase64;
    var d := DotIndex(s);
    if FrameRead(s, i) {
      assert d == i;
    }
    if '.' in s {
      var k :| 0 <= k < |s| && s[k] == '.';
    }
  }

  /** Each sender's payload is read as what it is, whatever hash is declared. */
  lemma KindOfSealed(c: Suite, key: bytes, nonce: bytes, e: Envelope, hash: string)
    requires Sound(c) && |key| == KEY_LENGTH && |nonce| == NONCE_LENGTH
    ensures var kind := KindAt(Reader(c, key), Sealed(SealEnvelope(c, key, nonce, e), hash));
            && (kind == Some(TowerKind) <==> e.Tower?)
            && (kind == Some(IdentityKind) <==> e.Identity?)
            && (kind == Some(VotingConfirmedKind) <==> e.VotingConfirmed?)
            && (kind == Some(UnknownKind) <==> e.OtherKind?)
  {
    hide Peek, SealEnvelope;
    PeekOfSeal(c, key, nonce, e);
  }

  /** What the senders send, field by field, and the hash they declare. */
  lemma SentIs(c: Suite, key: bytes, nonce: bytes, content: bytes, pubkey: string)
    requires Sound(c) && |key| == KEY_LENGTH && |nonce| == NONCE_LENGTH
    ensures var t := SendTower(c, key, nonce, content, pubkey);
            t.hash == c.hash(content)
            && Peek(c, key, t.payload) == Some(Tower("tower-1_9-" + pubkey + ".bin", ToBase64(content)))
    ensures var k := SendIdentity(c, key, nonce, content, pubkey);
            k.hash == c.hash(content) && Peek(c, key, k.payload) == Some(Identity(pubkey, content))
    ensures var v := SendVotingConfirmed(c, key, nonce, pubkey);
            v.hash == c.hash(c.stringify(VotingConfirmed(pubkey))) && Peek(c, key, v.payload) == Some(VotingConfirmed(pubkey))
  {
    hide Peek, SealEnvelope, ToBase64;
    PeekOfSeal(c, key, nonce, Tower(TowerFilename(pubkey), ToBase64(content)));
    PeekOfSeal(c, key, nonce, Identity(pubkey, content));
    PeekOfSeal(c, key, nonce, VotingConfirmed(pubkey));
  }

  /** A secret key of 64 bytes has a public key, the base58 text of its public half; no
      other has one. */
  lemma PubkeyExactly(c: Suite, secret: bytes)
    ensures |secret| == 64 ==> DerivePubkey(c, secret) == Some(Encode(c.publicHalf(secret)))
    ensures |secret| != 64 ==> DerivePubkey(c, secret) == None
  {
  }
}
