/** The layered log redactor: three regular-expression passes as string functions,
    what they leave behind, and when they change anything. */
module Redact {
  import opened Protocol

  // ---------- Character classes ----------

  predicate IsDigit(ch: char) {
    '0' <= ch <= '9'
  }

  /** The white space of JavaScript's `\s`. */
  predicate IsSpace(ch: char) {
    || ('\t' <= ch <= '\r') || ch == ' ' || ch == '\U{A0}' || ch == '\U{1680}'
    || ('\U{2000}' <= ch <= '\U{200A}') || ch == '\U{2028}' || ch == '\U{2029}'
    || ch == '\U{202F}' || ch == '\U{205F}' || ch == '\U{3000}' || ch == '\U{FEFF}'
  }

  predicate IsBase64(ch: char) {
    ('A' <= ch <= 'Z') || ('a' <= ch <= 'z') || IsDigit(ch) || ch == '+' || ch == '/'
  }

  predicate IsToken(ch: char) {
    IsBase64(ch) || ch == '='
  }

  // ---------- What is secret ----------

  const LONG_TOKEN_THRESHOLD := 40

  /** Some stretch of 40 characters consists of token characters only. */
  predicate HoldsLongToken(s: string) {
    exists i :: 0 <= i <= |s| - LONG_TOKEN_THRESHOLD && TokenAt(s, i, LONG_TOKEN_THRESHOLD)
  }

  predicate TokenAt(s: string, i: nat, n: nat) {
    i + n <= |s| && forall j :: i <= j < i + n ==> IsToken(s[j])
  }

  /** The parts of a text between its commas. */
  function Fields(s: string): (fields: seq<string>)
    ensures |fields| >= 1
  {
    if s == "" then [""]
    else
      var rest := Fields(s[1..]);
      if s[0] == ',' then [""] + rest else [[s[0]] + rest[0]] + rest[1..]
  }

  /** A number with white space around it. */
  predicate IsNumber(f: string) {
    exists a, b :: 0 <= a < b <= |f| && SpacedDigits(f, a, b)
  }

  predicate SpacedDigits(f: string, a: nat, b: nat)
    requires a <= b <= |f|
  {
    && (forall i :: 0 <= i < a ==> IsSpace(f[i]))
    && (forall i :: a <= i < b ==> IsDigit(f[i]))
    && (forall i :: b <= i < |f| ==> IsSpace(f[i]))
  }

  /** A bracketed, comma-separated list of 64 numbers or more. */
  predicate IsNumberArray(t: string) {
    && |t| >= 2 && t[0] == '[' && t[|t| - 1] == ']'
    && var fields := Fields(t[1..|t| - 1]);
       |fields| >= 64 && forall i :: 0 <= i < |fields| ==> IsNumber(fields[i])
  }

  ghost predicate HoldsNumberArray(s: string) {
    exists i, j :: 0 <= i <= j <= |s| && IsNumberArray(s[i..j])
  }

  // ---------- Pass 1: arrays ----------

  /** Where a scan of an array is: before a number, in one, or after one. */
  datatype Place = Wanting | Inside | Past

  /** Scan on from inside an array with `count` commas seen: the number of
      characters up to and including the closing bracket, or None. */
  function ScanArray(s: string, p: Place, count: nat): (k: Option<nat>)
    ensures k.Some? ==> 1 <= k.value <= |s| && s[k.value - 1] == ']'
  {
    if s == "" then None
    else
      match NextPlace(s[0], p)
      case Some(q) => Longer(ScanArray(s[1..], q, if s[0] == ',' then count + 1 else count))
      case None => if s[0] == ']' && p != Wanting && count >= 63 then Some(1) else None
  }

  function Longer(k: Option<nat>): Option<nat> {
    match k
    case None => None
    case Some(n) => Some(n + 1)
  }

  function NextPlace(ch: char, p: Place): Option<Place> {
    if IsSpace(ch) then Some(if p == Inside then Past else p)
    else if IsDigit(ch) then (if p == Past then None else Some(Inside))
    else if ch == ',' then (if p == Wanting then None else Some(Wanting))
    else None
  }

  /** The length of the array at the front of the text, if there is one. */
  function ArrayHere(s: string): (k: Option<nat>)
    ensures k.Some? ==> 2 <= k.value <= |s|
  {
    if s == "" || s[0] != '[' then None else Longer(ScanArray(s[1..], Wanting, 0))
  }

  const ARRAY_MARK := "[REDACTED:secret-bytes]"

  function Pass1(s: string): string {
    if s == "" then ""
    else
      match ArrayHere(s)
      case Some(k) => ARRAY_MARK + Pass1(s[k..])
      case None => [s[0]] + Pass1(s[1..])
  }

  // ---------- Passes 2 and 3: long runs ----------

  /** The longest prefix of base64 characters. */
  function Base64Run(s: string): (n: nat)
    ensures n <= |s|
    ensures forall i :: 0 <= i < n ==> IsBase64(s[i])
    ensures n < |s| ==> !IsBase64(s[n])
  {
    if s == "" || !IsBase64(s[0]) then 0 else 1 + Base64Run(s[1..])
  }

  function TokenRun(s: string): (n: nat)
    ensures n <= |s|
    ensures forall i :: 0 <= i < n ==> IsToken(s[i])
    ensures n < |s| ==> !IsToken(s[n])
  {
    if s == "" || !IsToken(s[0]) then 0 else 1 + TokenRun(s[1..])
  }

  /** Up to two padding characters. */
  function Padding(s: string): (n: nat)
    ensures n <= |s|
  {
    if s == "" || s[0] != '=' then 0
    else if |s| == 1 || s[1] != '=' then 1
    else 2
  }

  function Decimal(n: nat): string {
    if n < 10 then [DigitChar(n)] else Decimal(n / 10) + [DigitChar(n % 10)]
  }

  function DigitChar(d: nat): (ch: char)
    requires d < 10
    ensures IsDigit(ch)
  {
    (48 + d) as char
  }

  const BASE64_LABEL := "[REDACTED:base64:"
  const TOKEN_LABEL := "[REDACTED:long-token:"

  function Mark(head: string, n: nat): string {
    head + (Decimal(n) + "]")
  }

  function Pass2(s: string): string
    decreases |s|
  {
    if s == "" then ""
    else
      var n := Base64Run(s);
      if n < 60 then [s[0]] + Pass2(s[1..])
      else
        var m := n + Padding(s[n..]);
        Mark(BASE64_LABEL, m) + Pass2(s[m..])
  }

  function Pass3(s: string): string
    decreases |s|
  {
    if s == "" then ""
    else
      var n := TokenRun(s);
      if n < LONG_TOKEN_THRESHOLD then [s[0]] + Pass3(s[1..])
      else Mark(TOKEN_LABEL, n) + Pass3(s[n..])
  }

  function RedactSecrets(text: string): string {
    if text == "" then text else Pass3(Pass2(Pass1(text)))
  }

  /** Is there a run of 40 token characters? */
  function HasLongToken(text: string): (found: bool)
    ensures found <==> HoldsLongToken(text)
  {
    LongTokenFound(text);
    FindsLongToken(text)
  }

  predicate FindsLongToken(s: string) {
    s != "" && (TokenRun(s) >= LONG_TOKEN_THRESHOLD || FindsLongToken(s[1..]))
  }

  lemma {:induction false} LongTokenFound(s: string)
    ensures FindsLongToken(s) <==> HoldsLongToken(s)
  {
    if s != "" {
      LongTokenFound(s[1..]);
      var n := TokenRun(s);
      if n >= LONG_TOKEN_THRESHOLD {
        assert TokenAt(s, 0, LONG_TOKEN_THRESHOLD);
      }
      if FindsLongToken(s[1..]) {
        var i :| 0 <= i <= |s[1..]| - LONG_TOKEN_THRESHOLD && TokenAt(s[1..], i, LONG_TOKEN_THRESHOLD);
        assert TokenAt(s, i + 1, LONG_TOKEN_THRESHOLD);
      }
      if HoldsLongToken(s) && n < LONG_TOKEN_THRESHOLD {
        var i :| 0 <= i <= |s| - LONG_TOKEN_THRESHOLD && TokenAt(s, i, LONG_TOKEN_THRESHOLD);
        assert i > 0;
        assert TokenAt(s[1..], i - 1, LONG_TOKEN_THRESHOLD);
      }
    }
  }

  // ---------- The scan finds exactly the arrays ----------

  /** The scan, started in `p` with `count` commas behind it, would accept `x` followed by a bracket. */
  predicate Accepts(x: string, p: Place, count: nat) {
    if x == "" then p != Wanting && count >= 63
    else
      match NextPlace(x[0], p)
      case None => false
      case Some(q) => Accepts(x[1..], q, if x[0] == ',' then count + 1 else count)
  }

  lemma {:induction false} ScanMeans(s: string, p: Place, count: nat, k: nat)
    ensures ScanArray(s, p, count) == Some(k) <==> 1 <= k <= |s| && s[k - 1] == ']' && Accepts(s[..k - 1], p, count)
  {
    if s != "" {
      var next := NextPlace(s[0], p);
      if next.Some? && k > 0 {
        ScanMeans(s[1..], next.value, if s[0] == ',' then count + 1 else count, k - 1);
      }
      if 2 <= k <= |s| {
        assert s[..k - 1][1..] == s[1..][..k - 2];
      }
    }
  }

  /** Digits and then white space. */
  predicate IsRest(f: string) {
    exists b :: 0 <= b <= |f| && SpacedDigits(f, 0, b)
  }

  predicate AllSpace(f: string) {
    forall i :: 0 <= i < |f| ==> IsSpace(f[i])
  }

  lemma SpaceBefore(c: char, f: string)
    requires IsSpace(c)
    ensures IsNumber([c] + f) <==> IsNumber(f)
    ensures IsRest([c] + f) <==> AllSpace(f)
    ensures AllSpace([c] + f) <==> AllSpace(f)
  {
    var g := [c] + f;
    assert forall i :: 0 <= i < |f| ==> g[i + 1] == f[i];
    if IsNumber(g) {
      var a, b :| 0 <= a < b <= |g| && SpacedDigits(g, a, b);
      assert a > 0 by { assert !IsDigit(g[0]); }
      assert SpacedDigits(f, a - 1, b - 1);
    }
    if IsNumber(f) {
      var a, b :| 0 <= a < b <= |f| && SpacedDigits(f, a, b);
      assert SpacedDigits(g, a + 1, b + 1);
    }
    if IsRest(g) {
      var b :| 0 <= b <= |g| && SpacedDigits(g, 0, b);
      assert b == 0 by { assert !IsDigit(g[0]); }
      assert forall i :: 0 <= i < |f| ==> f[i] == g[i + 1] && IsSpace(f[i]);
    }
    if AllSpace(f) {
      assert SpacedDigits(g, 0, 0);
    }
    if AllSpace(g) {
      assert forall i :: 0 <= i < |f| ==> f[i] == g[i + 1] && IsSpace(f[i]);
    }
  }

  lemma DigitBefore(c: char, f: string)
    requires IsDigit(c)
    ensures IsNumber([c] + f) <==> IsRest(f)
    ensures IsRest([c] + f) <==> IsRest(f)
    ensures !AllSpace([c] + f)
  {
    var g := [c] + f;
    assert !IsSpace(g[0]);
    assert forall i :: 0 <= i < |f| ==> g[i + 1] == f[i];
    if IsNumber(g) {
      var a, b :| 0 <= a < b <= |g| && SpacedDigits(g, a, b);
      assert a == 0;
      assert SpacedDigits(f, 0, b - 1);
    }
    if IsRest(g) {
      var b :| 0 <= b <= |g| && SpacedDigits(g, 0, b);
      assert b > 0;
      assert SpacedDigits(f, 0, b - 1);
    }
    if IsRest(f) {
      var b :| 0 <= b <= |f| && SpacedDigits(f, 0, b);
      assert SpacedDigits(g, 0, b + 1);
    }
  }

  lemma OtherBefore(c: char, f: string)
    requires !IsDigit(c) && !IsSpace(c)
    ensures !IsNumber([c] + f) && !IsRest([c] + f) && !AllSpace([c] + f)
  {
    var g := [c] + f;
    assert !IsDigit(g[0]) && !IsSpace(g[0]);
  }

  lemma NothingBefore()
    ensures !IsNumber("") && IsRest("") && AllSpace("")
  {
    assert SpacedDigits("", 0, 0);
  }

  /** What the field that the scan is in must still be. */
  predicate Completes(p: Place, f: string) {
    match p
    case Wanting => IsNumber(f)
    case Inside => IsRest(f)
    case Past => AllSpace(f)
  }

  lemma {:induction false} AcceptsMeans(x: string, p: Place, count: nat)
    ensures Accepts(x, p, count)
       <==> count + |Fields(x)| >= 64 && Completes(p, Fields(x)[0])
            && forall i :: 1 <= i < |Fields(x)| ==> IsNumber(Fields(x)[i])
  {
    hide IsNumber, IsRest, AllSpace, IsSpace, IsDigit;
    NothingBefore();
    if x != "" {
      var c, rest := x[0], Fields(x[1..]);
      CommaIsNeither();
      var next := NextPlace(c, p);
      if c == ',' {
        AcceptsMeans(x[1..], Wanting, count + 1);
        assert Fields(x)[0] == "" && Fields(x)[1..] == rest;
        assert (forall i :: 0 <= i < |rest| ==> IsNumber(rest[i]))
          <==> (forall i :: 1 <= i < |Fields(x)| ==> IsNumber(Fields(x)[i])) by {
          assert forall i :: 0 <= i < |rest| ==> Fields(x)[i + 1] == rest[i];
          assert forall i :: 1 <= i < |Fields(x)| ==> Fields(x)[i] == rest[i - 1];
        }
      } else {
        assert Fields(x) == [[c] + rest[0]] + rest[1..];
        assert forall i :: 1 <= i < |rest| ==> Fields(x)[i] == rest[i];
        if IsSpace(c) {
          SpaceBefore(c, rest[0]);
        } else if IsDigit(c) {
          DigitBefore(c, rest[0]);
        } else {
          OtherBefore(c, rest[0]);
        }
        if next.Some? {
          AcceptsMeans(x[1..], next.value, count);
        }
      }
    }
  }

  lemma CommaIsNeither()
    ensures !IsSpace(',') && !IsDigit(',')
    ensures forall c :: !(IsSpace(c) && IsDigit(c))
  {
  }

  /** The deterministic scan finds an array at the front of a text exactly when the
      text begins with one. */
  lemma ArrayHereMeans(s: string, k: nat)
    ensures ArrayHere(s) == Some(k) <==> k <= |s| && IsNumberArray(s[..k])
  {
    hide Accepts, IsNumber, Fields, ScanArray, Completes;
    if s != "" && s[0] == '[' && k >= 1 {
      ScanMeans(s[1..], Wanting, 0, k - 1);
      if 2 <= k <= |s| {
        var x := s[1..][..k - 2];
        assert s[..k][1..k - 1] == x && s[1..][k - 2] == s[k - 1];
        AcceptsMeans(x, Wanting, 0);
        WantingANumber(Fields(x));
      }
    }
  }

  lemma WantingANumber(fields: seq<string>)
    requires |fields| >= 1
    ensures Completes(Wanting, fields[0]) && (forall i :: 1 <= i < |fields| ==> IsNumber(fields[i]))
       <==> (forall i :: 0 <= i < |fields| ==> IsNumber(fields[i]))
  {
    hide IsNumber;
  }

  predicate FindsArray(s: string) {
    s != "" && (ArrayHere(s).Some? || FindsArray(s[1..]))
  }

  lemma {:induction false} ArrayFound(s: string)
    ensures FindsArray(s) <==> HoldsNumberArray(s)
  {
    hide ArrayHere, IsNumberArray;
    if s == "" {
      assert !IsNumberArray("") by { EmptyIsNoArray(); }
      assert forall i, j :: 0 <= i <= j <= |s| ==> s[i..j] == "";
    } else {
      ArrayFound(s[1..]);
      if ArrayHere(s).Some? {
        ArrayHereMeans(s, ArrayHere(s).value);
        assert s[0..ArrayHere(s).value] == s[..ArrayHere(s).value];
      }
      if FindsArray(s[1..]) {
        var i, j :| 0 <= i <= j <= |s[1..]| && IsNumberArray(s[1..][i..j]);
        SliceOfTail(s, i + 1, j + 1);
      }
      if HoldsNumberArray(s) {
        var i, j :| 0 <= i <= j <= |s| && IsNumberArray(s[i..j]);
        if i == 0 {
          assert s[0..j] == s[..j];
          ArrayHereMeans(s, j);
        } else {
          SliceOfTail(s, i, j);
        }
      }
    }
  }

  lemma SliceOfTail(s: string, i: nat, j: nat)
    requires 1 <= i <= j <= |s|
    ensures s[1..][i - 1..j - 1] == s[i..j]
  {
  }

  lemma EmptyIsNoArray()
    ensures !IsNumberArray("")
  {
  }

  // ---------- No pass makes an array ----------

  /** An array cannot reach over an opening bracket. */
  lemma {:induction false} ScanThrough1(s: string, p: Place, count: nat)
    ensures ScanArray(Pass1(s), p, count).Some? ==> ScanArray(s, p, count).Some?
  {
    hide ArrayHere;
    if s != "" && ArrayHere(s).None? {
      assert Pass1(s)[1..] == Pass1(s[1..]);
      var next := NextPlace(s[0], p);
      if next.Some? {
        ScanThrough1(s[1..], next.value, if s[0] == ',' then count + 1 else count);
      }
    } else if s != "" {
      assert Pass1(s)[0] == '[';
    }
  }

  lemma {:induction false} ScanThrough2(s: string, p: Place, count: nat)
    ensures ScanArray(Pass2(s), p, count).Some? ==> ScanArray(s, p, count).Some?
  {
    hide Base64Run, Padding, Decimal;
    if s != "" && Base64Run(s) < 60 {
      assert Pass2(s)[1..] == Pass2(s[1..]);
      var next := NextPlace(s[0], p);
      if next.Some? {
        ScanThrough2(s[1..], next.value, if s[0] == ',' then count + 1 else count);
      }
    } else if s != "" {
      assert Pass2(s)[0] == '[';
    }
  }

  lemma {:induction false} ScanThrough3(s: string, p: Place, count: nat)
    ensures ScanArray(Pass3(s), p, count).Some? ==> ScanArray(s, p, count).Some?
  {
    hide TokenRun, Decimal;
    if s != "" && TokenRun(s) < LONG_TOKEN_THRESHOLD {
      assert Pass3(s)[1..] == Pass3(s[1..]);
      var next := NextPlace(s[0], p);
      if next.Some? {
        ScanThrough3(s[1..], next.value, if s[0] == ',' then count + 1 else count);
      }
    } else if s != "" {
      assert Pass3(s)[0] == '[';
    }
  }

  /** No array begins inside `m`, whatever follows it. */
  predicate Inert(m: string) {
    |m| >= 2 && m[1] == 'R' && forall i :: 1 <= i < |m| ==> m[i] != '['
  }

  lemma InertHoldsNone(m: string, t: string)
    requires Inert(m)
    ensures FindsArray(m + t) <==> FindsArray(t)
  {
    assert (m + t)[1] == 'R';
    assert ArrayHere(m + t).None?;
    assert (m + t)[1..] == m[1..] + t;
    NoBracketNoArray(m[1..], t);
  }

  lemma {:induction false} NoBracketNoArray(m: string, t: string)
    requires forall i :: 0 <= i < |m| ==> m[i] != '['
    ensures FindsArray(m + t) <==> FindsArray(t)
  {
    if m == "" {
      assert m + t == t;
    } else {
      assert (m + t)[0] == m[0] && (m + t)[1..] == m[1..] + t;
      NoBracketNoArray(m[1..], t);
    }
  }

  lemma {:induction false} DecimalIsDigits(n: nat)
    ensures Decimal(n) != "" && forall i :: 0 <= i < |Decimal(n)| ==> IsDigit(Decimal(n)[i])
  {
    if n >= 10 {
      DecimalIsDigits(n / 10);
    }
  }

  lemma LabelsAreInert(n: nat)
    ensures Inert(ARRAY_MARK) && Inert(Mark(BASE64_LABEL, n)) && Inert(Mark(TOKEN_LABEL, n))
  {
    hide Decimal;
    DecimalIsDigits(n);
  }

  /** The first pass leaves no array. */
  lemma {:induction false} Pass1LeavesNone(s: string)
    ensures !FindsArray(Pass1(s))
  {
    hide ScanArray;
    if s != "" {
      match ArrayHere(s)
      case Some(k) =>
        LabelsAreInert(0);
        Pass1LeavesNone(s[k..]);
        InertHoldsNone(ARRAY_MARK, Pass1(s[k..]));
      case None =>
        Pass1LeavesNone(s[1..]);
        ScanThrough1(s[1..], Wanting, 0);
        assert Pass1(s)[1..] == Pass1(s[1..]);
    }
  }

  /** The other passes make none. */
  lemma {:induction false} Pass2MakesNone(s: string)
    requires !FindsArray(s)
    ensures !FindsArray(Pass2(s))
  {
    hide ScanArray, Base64Run, Padding, Mark;
    if s != "" {
      var n := Base64Run(s);
      if n < 60 {
        Pass2MakesNone(s[1..]);
        ScanThrough2(s[1..], Wanting, 0);
        assert Pass2(s)[1..] == Pass2(s[1..]);
      } else {
        var m := n + Padding(s[n..]);
        FindsLater(s, m);
        Pass2MakesNone(s[m..]);
        LabelsAreInert(m);
        InertHoldsNone(Mark(BASE64_LABEL, m), Pass2(s[m..]));
      }
    }
  }

  lemma {:induction false} Pass3MakesNone(s: string)
    requires !FindsArray(s)
    ensures !FindsArray(Pass3(s))
    decreases |s|
  {
    hide ScanArray, TokenRun, Mark;
    if s != "" {
      var n := TokenRun(s);
      if n < LONG_TOKEN_THRESHOLD {
        Pass3MakesNone(s[1..]);
        ScanThrough3(s[1..], Wanting, 0);
        assert Pass3(s)[1..] == Pass3(s[1..]);
      } else {
        FindsLater(s, n);
        Pass3MakesNone(s[n..]);
        LabelsAreInert(n);
        InertHoldsNone(Mark(TOKEN_LABEL, n), Pass3(s[n..]));
      }
    }
  }

  lemma {:induction false} FindsLater(s: string, k: nat)
    requires k <= |s| && !FindsArray(s)
    ensures !FindsArray(s[k..])
  {
    if k > 0 {
      assert s[1..][k - 1..] == s[k..];
      FindsLater(s[1..], k - 1);
    } else {
      assert s[0..] == s;
    }
  }

  // ---------- The last pass leaves no long token ----------

  function Pow10(k: nat): nat {
    if k == 0 then 1 else 10 * Pow10(k - 1)
  }

  lemma {:induction false} DecimalLength(n: nat, k: nat)
    requires k >= 1 && n < Pow10(k)
    ensures |Decimal(n)| <= k
  {
    if n >= 10 && k > 1 {
      DecimalLength(n / 10, k - 1);
    }
  }

  lemma {:induction false} RunsEnd(m: string, t: string)
    requires m != "" && !IsToken(m[|m| - 1]) && !FindsLongToken(m)
    ensures FindsLongToken(m + t) <==> FindsLongToken(t)
    ensures TokenRun(m + t) == TokenRun(m)
  {
    assert (m + t)[0] == m[0] && (m + t)[1..] == m[1..] + t;
    if |m| == 1 {
      assert m[1..] + t == t;
    } else {
      RunsEnd(m[1..], t);
    }
  }

  lemma {:induction false} ShortHasNone(m: string)
    requires m != "" && !IsToken(m[|m| - 1]) && |m| <= LONG_TOKEN_THRESHOLD
    ensures !FindsLongToken(m)
  {
    assert TokenRun(m) < |m|;
    if |m| > 1 {
      ShortHasNone(m[1..]);
    }
  }

  lemma TokenMarkHasNone(n: nat, t: string)
    requires n < Pow10(39)
    ensures FindsLongToken(Mark(TOKEN_LABEL, n) + t) <==> FindsLongToken(t)
  {
    hide Decimal, FindsLongToken;
    var tail := Decimal(n) + "]";
    DecimalLength(n, 39);
    ShortHasNone(tail);
    ShortHasNone(TOKEN_LABEL);
    assert Mark(TOKEN_LABEL, n) + t == TOKEN_LABEL + (tail + t);
    RunsEnd(TOKEN_LABEL, tail + t);
    RunsEnd(tail, t);
  }

  lemma {:induction false} ShortRunStays(s: string)
    requires TokenRun(s) < LONG_TOKEN_THRESHOLD
    ensures TokenRun(Pass3(s)) == TokenRun(s)
  {
    if s != "" {
      assert Pass3(s)[0] == s[0] && Pass3(s)[1..] == Pass3(s[1..]);
      if IsToken(s[0]) {
        ShortRunStays(s[1..]);
      }
    }
  }

  lemma {:induction false} Pass3LeavesNone(s: string)
    requires |s| < Pow10(39)
    ensures !FindsLongToken(Pass3(s))
    decreases |s|
  {
    hide Mark, Pow10;
    if s != "" {
      var n := TokenRun(s);
      if n < LONG_TOKEN_THRESHOLD {
        Pass3LeavesNone(s[1..]);
        ShortRunStays(s);
        assert Pass3(s)[1..] == Pass3(s[1..]);
      } else {
        Pass3LeavesNone(s[n..]);
        TokenMarkHasNone(n, Pass3(s[n..]));
      }
    }
  }

  // ---------- The first two passes do not lengthen a text ----------

  lemma {:induction false} DecimalIsShort(n: nat)
    ensures |Decimal(n)| <= n / 10 + 1
  {
    if n >= 10 {
      DecimalIsShort(n / 10);
    }
  }

  /** An array that is accepted has at least 63 commas still to come. */
  lemma {:induction false} ScanIsLong(s: string, p: Place, count: nat)
    ensures ScanArray(s, p, count).Some? ==> ScanArray(s, p, count).value + count >= 64
  {
    if s != "" {
      var next := NextPlace(s[0], p);
      if next.Some? {
        ScanIsLong(s[1..], next.value, if s[0] == ',' then count + 1 else count);
      }
    }
  }

  lemma {:induction false} Pass1Shortens(s: string)
    ensures |Pass1(s)| <= |s|
  {
    hide ScanArray;
    if s != "" {
      match ArrayHere(s)
      case Some(k) =>
        ScanIsLong(s[1..], Wanting, 0);
        Pass1Shortens(s[k..]);
      case None => Pass1Shortens(s[1..]);
    }
  }

  lemma {:induction false} Pass2Shortens(s: string)
    ensures |Pass2(s)| <= |s|
    decreases |s|
  {
    hide Base64Run, Padding, Decimal;
    if s != "" {
      var n := Base64Run(s);
      if n < 60 {
        Pass2Shortens(s[1..]);
      } else {
        var m := n + Padding(s[n..]);
        DecimalIsShort(m);
        Pass2Shortens(s[m..]);
      }
    }
  }

  // ---------- A clean text is left alone ----------

  lemma {:induction false} CleanThrough1(s: string)
    requires !FindsArray(s)
    ensures Pass1(s) == s
  {
    hide ArrayHere;
    if s != "" {
      CleanThrough1(s[1..]);
    }
  }

  lemma {:induction false} RunOfTokens(s: string)
    ensures Base64Run(s) <= TokenRun(s)
  {
    if s != "" && IsBase64(s[0]) {
      RunOfTokens(s[1..]);
    }
  }

  lemma {:induction false} CleanThrough2(s: string)
    requires !FindsLongToken(s)
    ensures Pass2(s) == s
  {
    hide Base64Run, TokenRun;
    if s != "" {
      RunOfTokens(s);
      CleanThrough2(s[1..]);
    }
  }

  lemma {:induction false} CleanThrough3(s: string)
    requires !FindsLongToken(s)
    ensures Pass3(s) == s
  {
    hide TokenRun;
    if s != "" {
      CleanThrough3(s[1..]);
    }
  }

  // ---------- What redaction guarantees ----------

  /** Texts are shorter than 10^39 characters, so a count has at most 39 digits. */
  predicate Writable(s: string) {
    |s| < Pow10(39)
  }

  /** No 40-character token and no array of 64 numbers survives. */
  lemma NothingSurvives(text: string)
    requires Writable(text)
    ensures !HoldsLongToken(RedactSecrets(text)) && !HoldsNumberArray(RedactSecrets(text))
  {
    hide HoldsLongToken, HoldsNumberArray, FindsArray, FindsLongToken, Pow10;
    Pass1Shortens(text);
    Pass2Shortens(Pass1(text));
    Pass3LeavesNone(Pass2(Pass1(text)));
    Pass1LeavesNone(text);
    Pass2MakesNone(Pass1(text));
    Pass3MakesNone(Pass2(Pass1(text)));
    LongTokenFound(RedactSecrets(text));
    ArrayFound(RedactSecrets(text));
  }

  /** Redaction changes a text exactly when there is something to redact. */
  lemma ChangesOnlySecrets(text: string)
    requires Writable(text)
    ensures RedactSecrets(text) == text <==> !HoldsLongToken(text) && !HoldsNumberArray(text)
  {
    hide HoldsLongToken, HoldsNumberArray, Pass1, Pass2, Pass3, Pow10;
    NothingSurvives(text);
    if !HoldsLongToken(text) && !HoldsNumberArray(text) {
      CleanIsKept(text);
    }
  }

  lemma CleanIsKept(text: string)
    requires !HoldsLongToken(text) && !HoldsNumberArray(text)
    ensures RedactSecrets(text) == text
  {
    hide HoldsLongToken, HoldsNumberArray, Pass1, Pass2, Pass3, FindsArray, FindsLongToken;
    LongTokenFound(text);
    ArrayFound(text);
    CleanThrough1(text);
    CleanThrough2(text);
    CleanThrough3(text);
  }

  /** A second redaction, as the hub does to what an agent redacted, changes nothing. */
  lemma RedactTwice(text: string)
    requires Writable(text)
    ensures RedactSecrets(RedactSecrets(text)) == RedactSecrets(text)
  {
    hide HoldsLongToken, HoldsNumberArray, RedactSecrets, Pow10;
    NothingSurvives(text);
    CleanIsKept(RedactSecrets(text));
  }

  // ---------- Where the passes act ----------

  /** An array is replaced by its mark wherever it stands, and the text on either
      side is treated as if it stood alone. */
  lemma {:induction false} ArrayIsReplaced(a: string, t: string, b: string)
    requires IsNumberArray(t)
    ensures Pass1(a + t + b) == Pass1(a) + ARRAY_MARK + Pass1(b)
  {
    hide ArrayHere, IsNumberArray, Pass1;
    ArrayOpens(t);
    if a == "" {
      ArrayInFront(t, b);
      assert a + t + b == t + b;
    } else {
      Pass1Step(a);
      Pass1Step(a + t + b);
      StopsAtBracket(a, t + b);
      assert a + t + b == a + (t + b);
      assert (a + t + b)[0] == a[0];
      var k := if ArrayHere(a).Some? then ArrayHere(a).value else 1;
      DropFront(a, t, b, k);
      ArrayIsReplaced(a[k..], t, b);
      Regroup(if ArrayHere(a).Some? then ARRAY_MARK else [a[0]], Pass1(a[k..]), ARRAY_MARK, Pass1(b));
    }
  }

  lemma ArrayInFront(t: string, b: string)
    requires IsNumberArray(t)
    ensures Pass1(t + b) == Pass1("") + ARRAY_MARK + Pass1(b)
  {
    hide ArrayHere, IsNumberArray, Pass1;
    ArrayOpens(t);
    assert (t + b)[..|t|] == t && (t + b)[|t|..] == b;
    ArrayHereMeans(t + b, |t|);
    Pass1Step(t + b);
    Pass1OfNothing();
    assert "" + ARRAY_MARK == ARRAY_MARK;
  }

  lemma Pass1Step(s: string)
    requires s != ""
    ensures Pass1(s) == match ArrayHere(s)
                        case Some(k) => ARRAY_MARK + Pass1(s[k..])
                        case None => [s[0]] + Pass1(s[1..])
  {
    hide ArrayHere;
  }

  lemma Pass1OfNothing()
    ensures Pass1("") == ""
  {
  }

  lemma ArrayOpens(t: string)
    requires IsNumberArray(t)
    ensures t != "" && t[0] == '['
  {
  }

  lemma {:induction false} ScanStopsAtBracket(a: string, t: string, p: Place, count: nat)
    requires t != "" && t[0] == '['
    ensures ScanArray(a + t, p, count) == ScanArray(a, p, count)
  {
    if a == "" {
      assert a + t == t;
    } else {
      assert (a + t)[0] == a[0] && (a + t)[1..] == a[1..] + t;
      var next := NextPlace(a[0], p);
      if next.Some? {
        ScanStopsAtBracket(a[1..], t, next.value, if a[0] == ',' then count + 1 else count);
      }
    }
  }

  lemma StopsAtBracket(a: string, t: string)
    requires a != "" && t != "" && t[0] == '['
    ensures ArrayHere(a + t) == ArrayHere(a)
  {
    hide ScanArray;
    assert (a + t)[0] == a[0] && (a + t)[1..] == a[1..] + t;
    ScanStopsAtBracket(a[1..], t, Wanting, 0);
  }

  /** One step of the last pass. */
  lemma Pass3Step(s: string, k: nat)
    requires s != "" && k == TokenRun(s)
    ensures Pass3(s) == if k < LONG_TOKEN_THRESHOLD then [s[0]] + Pass3(s[1..]) else Mark(TOKEN_LABEL, k) + Pass3(s[k..])
  {
    hide TokenRun, Mark;
  }

  /** Runs do not reach over a character that is no token character. */
  lemma RunAtFront(a: string, t: string, b: string)
    requires forall i :: 0 <= i < |t| ==> IsToken(t[i])
    requires a == "" || !IsToken(a[|a| - 1])
    requires b == "" || !IsToken(b[0])
    ensures TokenRun(a + t + b) == if a == "" then |t| else TokenRun(a)
  {
    hide IsToken, TokenRun;
    if a == "" {
      assert a + t + b == t + b;
      assert b != "" ==> (t + b)[|t|] == b[0];
      RunIs(t + b, |t|);
    } else {
      var n := TokenRun(a);
      assert n < |a|;
      assert a + t + b == a + (t + b);
      RunIs(a + (t + b), n);
    }
  }

  lemma RunIs(s: string, n: nat)
    requires n <= |s| && (forall i :: 0 <= i < n ==> IsToken(s[i])) && (n < |s| ==> !IsToken(s[n]))
    ensures TokenRun(s) == n
  {
    hide IsToken, TokenRun;
    var k := TokenRun(s);
    assert k >= n && k <= n;
  }

  lemma DropFront(a: string, t: string, b: string, k: nat)
    requires k <= |a|
    ensures (a + t + b)[k..] == a[k..] + t + b
  {
  }

  lemma Regroup(pre: string, x: string, m: string, y: string)
    ensures pre + (x + m + y) == pre + x + m + y
  {
  }

  /** A long token that stands by itself is replaced by a mark that says how long it
      was, and the text on either side is treated as if it stood alone. */
  lemma {:induction false} TokenIsReplaced(a: string, t: string, b: string)
    requires |t| >= LONG_TOKEN_THRESHOLD && forall i :: 0 <= i < |t| ==> IsToken(t[i])
    requires a == "" || !IsToken(a[|a| - 1])
    requires b == "" || !IsToken(b[0])
    ensures Pass3(a + t + b) == Pass3(a) + Mark(TOKEN_LABEL, |t|) + Pass3(b)
    decreases |a|
  {
    hide Mark, Pass3, IsToken, TokenRun;
    var s := a + t + b;
    RunAtFront(a, t, b);
    if a == "" {
      assert s[|t|..] == b;
      Pass3Step(s, |t|);
      EmptyPass3();
      assert "" + Mark(TOKEN_LABEL, |t|) == Mark(TOKEN_LABEL, |t|);
    } else {
      var n := TokenRun(a);
      var k := if n < LONG_TOKEN_THRESHOLD then 1 else n;
      var pre := if n < LONG_TOKEN_THRESHOLD then [a[0]] else Mark(TOKEN_LABEL, n);
      DropFront(a, t, b, k);
      TokenIsReplaced(a[k..], t, b);
      Pass3Step(s, n);
      Pass3Step(a, n);
      Regroup(pre, Pass3(a[k..]), Mark(TOKEN_LABEL, |t|), Pass3(b));
    }
  }

  lemma EmptyPass3()
    ensures Pass3("") == ""
  {
  }

  /** The bound on the text is needed: 10^39 equals signs leave a 40-digit count. */
  lemma BoundIsNeeded()
    ensures HoldsLongToken(RedactSecrets(seq(Pow10(39), i => '=')))
  {
    hide Pow10, Pass1, Pass2, Pass3, Mark, TokenRun, FindsArray, Decimal, HoldsLongToken;
    var n := Pow10(39);
    var s := seq(n, i => '=');
    PowersGrow(2, 39);
    PowersOfTen();
    NoArrayOfEquals(s);
    CleanThrough1(s);
    NoBase64OfEquals(s);
    assert TokenRun(s) == n;
    TokenIsReplaced("", s, "");
    EmptyPass3();
    assert "" + s + "" == s && "" + Mark(TOKEN_LABEL, n) + "" == Mark(TOKEN_LABEL, n);
    LongDecimal(39);
    LongCountHolds(n);
  }

  lemma LongCountHolds(n: nat)
    requires |Decimal(n)| >= LONG_TOKEN_THRESHOLD
    ensures HoldsLongToken(Mark(TOKEN_LABEL, n))
  {
    hide Decimal;
    DecimalIsDigits(n);
    var at := |TOKEN_LABEL|;
    assert forall i :: 0 <= i < |Decimal(n)| ==> Mark(TOKEN_LABEL, n)[at + i] == Decimal(n)[i];
    assert TokenAt(Mark(TOKEN_LABEL, n), at, LONG_TOKEN_THRESHOLD);
  }

  lemma PowersOfTen()
    ensures Pow10(2) == 100
  {
    assert Pow10(1) == 10;
  }

  lemma {:induction false} PowersArePositive(k: nat)
    ensures Pow10(k) >= 1
  {
    if k > 0 {
      PowersArePositive(k - 1);
    }
  }

  lemma {:induction false} PowersGrow(j: nat, k: nat)
    requires j <= k
    ensures Pow10(j) <= Pow10(k)
  {
    if j < k {
      PowersGrow(j, k - 1);
    }
  }

  lemma {:induction false} LongDecimal(k: nat)
    ensures |Decimal(Pow10(k))| == k + 1
  {
    if k > 0 {
      PowersArePositive(k - 1);
      LongDecimal(k - 1);
      assert Pow10(k) / 10 == Pow10(k - 1);
    }
  }

  lemma {:induction false} NoArrayOfEquals(s: string)
    requires forall i :: 0 <= i < |s| ==> s[i] == '='
    ensures !FindsArray(s)
  {
    if s != "" {
      NoArrayOfEquals(s[1..]);
    }
  }

  lemma {:induction false} NoBase64OfEquals(s: string)
    requires forall i :: 0 <= i < |s| ==> s[i] == '='
    ensures Pass2(s) == s
  {
    if s != "" {
      assert !IsBase64(s[0]);
      NoBase64OfEquals(s[1..]);
    }
  }

  // ---------- Error messages ----------

  /** Index of the first line feed, or the length. */
  function LineFeed(s: string): (i: nat)
    ensures i <= |s| && (i < |s| ==> s[i] == '\n') && forall j :: 0 <= j < i ==> s[j] != '\n'
  {
    if s == "" || s[0] == '\n' then 0 else 1 + LineFeed(s[1..])
  }

  /** The text before the first line break, CR LF or LF. */
  function FirstLine(s: string): string {
    var i := LineFeed(s);
    if 0 < i < |s| && s[i - 1] == '\r' then s[..i - 1] else s[..i]
  }

  const REFUSED := "[REDACTED: error message contained long token]"

  const ELLIPSIS := "\U{2026}"

  function Cut(line: string): string {
    if |line| > 200 then line[..200] else line
  }

  function SanitizeErrorMessage(raw: string): string {
    var firstLine := FirstLine(raw);
    var truncated := if |firstLine| > 200 then firstLine[..200] + ELLIPSIS else firstLine;
    if HasLongToken(truncated) then REFUSED else truncated
  }

  /** The whole message is refused exactly when its visible part, the first line cut
      at 200 characters, holds a long token; otherwise that part is shown. What is
      shown never holds one, is one line, and has at most 201 characters. */
  lemma SanitizeMeans(raw: string)
    ensures var r := SanitizeErrorMessage(raw);
            var line := FirstLine(raw);
            var shown := if |line| > 200 then line[..200] else line;
            && !HoldsLongToken(r) && |r| <= 201 && (HoldsLongToken(shown) || '\n' !in r)
            && r == if HoldsLongToken(shown) then "[REDACTED: error message contained long token]"
                    else if |line| > 200 then shown + "\U{2026}" else line
  {
    hide HoldsLongToken;
    RefusalIsClean();
    EllipsisAddsNone(Cut(FirstLine(raw)));
  }

  /** The first line is what stands before the first line break, CR LF or LF. */
  lemma FirstLineMeans(raw: string)
    ensures var line := FirstLine(raw);
            && line <= raw && '\n' !in line
            && var rest := raw[|line|..];
               rest == "" || "\r\n" <= rest || (rest[0] == '\n' && (line == "" || line[|line| - 1] != '\r'))
  {
    var i := LineFeed(raw);
    if 0 < i < |raw| && raw[i - 1] == '\r' {
      assert raw[i - 1..][1] == '\n';
    }
  }

  lemma EllipsisAddsNone(s: string)
    ensures HoldsLongToken(s + ELLIPSIS) <==> HoldsLongToken(s)
  {
    var t := s + ELLIPSIS;
    if HoldsLongToken(t) {
      var i :| 0 <= i <= |t| - LONG_TOKEN_THRESHOLD && TokenAt(t, i, LONG_TOKEN_THRESHOLD);
      assert t[|s|] == '\U{2026}' && !IsToken(t[|s|]);
      assert forall j :: i <= j < i + LONG_TOKEN_THRESHOLD ==> s[j] == t[j];
      assert TokenAt(s, i, LONG_TOKEN_THRESHOLD);
    }
    if HoldsLongToken(s) {
      var i :| 0 <= i <= |s| - LONG_TOKEN_THRESHOLD && TokenAt(s, i, LONG_TOKEN_THRESHOLD);
      assert TokenAt(t, i, LONG_TOKEN_THRESHOLD);
    }
  }

  lemma RefusalIsClean()
    ensures !HoldsLongToken(REFUSED) && |REFUSED| <= 201
  {
    assert REFUSED[10] == ' ' && !IsToken(REFUSED[10]);
  }
}
