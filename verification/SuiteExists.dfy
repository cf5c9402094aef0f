/** The assumptions on the library code can be met: here is a suite that meets them.
    It stands in for no cipher; it only shows that the theorems are about something. */
module SuiteExists {
  import opened Protocol
  import opened Base58
  import opened Envelope
  import opened System

  /** A text as bytes: each character behind a 1, the end a 0. */
  function Text(s: string): bytes {
    if s == "" then [0]
    else [1, High(s[0] as int), Middle(s[0] as int), Low(s[0] as int)] + Text(s[1..])
  }

  function High(n: int): byte
    requires 0 <= n < 0x110000
  {
    n / 65536
  }

  function Middle(n: int): byte {
    n / 256 % 256
  }

  function Low(n: int): byte {
    n % 256
  }

  function Join(h: byte, m: byte, l: byte): int {
    h * 65536 + m * 256 + l
  }

  lemma Joined(n: int)
    requires 0 <= n < 0x110000
    ensures Join(High(n), Middle(n), Low(n)) == n
  {
  }

  predicate IsScalar(n: int) {
    0 <= n < 0xD800 || 0xE000 <= n < 0x110000
  }

  /** The text at the front of the bytes, and the rest. */
  function ReadText(b: bytes): Option<(string, bytes)> {
    if b == [] then None
    else if b[0] == 0 then Some(("", b[1..]))
    else if |b| < 4 || !IsScalar(Join(b[1], b[2], b[3])) then None
    else match ReadText(b[4..])
         case None => None
         case Some(r) => Some(([Join(b[1], b[2], b[3]) as char] + r.0, r.1))
  }

  lemma {:induction false} ReadsText(s: string, rest: bytes)
    ensures ReadText(Text(s) + rest) == Some((s, rest))
  {
    hide Join, High, Middle, Low;
    if s == "" {
      assert ([0] + rest)[1..] == rest;
    } else {
      var n := s[0] as int;
      var b := Text(s) + rest;
      Joined(n);
      assert b[0] == 1 && b[1] == High(n) && b[2] == Middle(n) && b[3] == Low(n);
      assert b[4..] == Text(s[1..]) + rest;
      ReadsText(s[1..], rest);
      assert [s[0]] + s[1..] == s;
    }
  }

  function Stringify(e: Envelope): bytes {
    match e
    case Tower(filename, content) => [0] + Text(filename) + Text(content)
    case Identity(pubkey, secret) => [1] + Text(pubkey) + secret
    case VotingConfirmed(pubkey) => [2] + Text(pubkey)
    case OtherKind => [3]
  }

  function Parse(b: bytes): Option<Envelope> {
    if b == [] then None
    else if b[0] == 3 then Some(OtherKind)
    else
      match ReadText(b[1..])
      case None => None
      case Some(first) =>
        if b[0] == 1 then Some(Identity(first.0, first.1))
        else if b[0] == 2 then Some(VotingConfirmed(first.0))
        else match ReadText(first.1)
             case None => None
             case Some(second) => Some(Tower(first.0, second.0))
  }

  lemma ParsesBack(e: Envelope)
    ensures Parse(Stringify(e)) == Some(e)
  {
    hide Text, ReadText;
    var b := Stringify(e);
    match e
    case Tower(filename, content) =>
      assert b[1..] == Text(filename) + Text(content);
      ReadsText(filename, Text(content));
      assert Text(content) + [] == Text(content);
      ReadsText(content, []);
    case Identity(pubkey, secret) =>
      assert b[1..] == Text(pubkey) + secret;
      ReadsText(pubkey, secret);
    case VotingConfirmed(pubkey) =>
      assert b[1..] == Text(pubkey) + [];
      ReadsText(pubkey, []);
    case OtherKind =>
  }

  function Open(b: bytes): Option<bytes> {
    if b == [] then None else Some(b[1..])
  }

  /** A configuration that satisfies every assumption made anywhere in this project. */
  lemma ValidConfigExists() returns (c: Config)
    ensures ValidConfig(c) && c.hasKeypair && c.hasVoteKeypair && |c.stakedKey| == SECRET_KEY_LENGTH
  {
    var suite := Suite((k, n, p) => [0] + p, (k, n, b) => Open(b), b => "", Stringify, Parse, b => b);
    forall p: bytes
      ensures Open([0] + p) == Some(p)
    {
      assert ([0] + p)[1..] == p;
    }
    forall e
      ensures Parse(Stringify(e)) == Some(e)
    {
      ParsesBack(e);
    }
    c := Config(suite, seq(KEY_LENGTH, i => 0), seq(SECRET_KEY_LENGTH, i => 0), true, true, false);
  }
}
