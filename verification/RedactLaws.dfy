/** What redaction does to a text with a secret in it: the secret becomes its mark, and
    the text on either side is redacted as if it stood alone. */
module RedactLaws {
  import opened Protocol
  import opened Base58
  import opened Envelope
  import EnvelopeLaws
  import opened Redact

  // ---------- Marks ----------

  /** A text whose ends break every run and which has no long one of its own. */
  predicate Neutral(m: string) {
    && m != "" && !IsToken(m[0]) && !IsToken(m[|m| - 1])
    && !FindsLongToken(m)
  }

  lemma MarksAreNeutral(n: nat)
    requires n < Pow10(39)
    ensures Neutral(ARRAY_MARK) && Neutral(Mark(BASE64_LABEL, n)) && Neutral(Mark(TOKEN_LABEL, n))
  {
    hide Decimal, FindsLongToken, Pow10;
    ShortHasNone(ARRAY_MARK);
    LabelThenCount(BASE64_LABEL, n);
    LabelThenCount(TOKEN_LABEL, n);
  }

  lemma LabelThenCount(head: string, n: nat)
    requires n < Pow10(39) && 0 < |head| <= 40 && head[|head| - 1] == ':'
    ensures !FindsLongToken(Mark(head, n))
  {
    hide Decimal, FindsLongToken, Pow10;
    DecimalLength(n, 39);
    ShortHasNone(head);
    ShortHasNone(Decimal(n) + "]");
    RunsEnd(head, Decimal(n) + "]");
  }

  /** The number a string of digits denotes. */
  function Denotes(s: string): int {
    if s == "" then 0 else 10 * Denotes(s[..|s| - 1]) + (s[|s| - 1] as int - 48)
  }

  /** The count in a mark is written in decimal, without leading zeros. */
  lemma {:induction false} DecimalDenotes(n: nat)
    ensures Denotes(Decimal(n)) == n
    ensures Decimal(n) != "" && (n > 0 ==> Decimal(n)[0] != '0')
  {
    if n >= 10 {
      DecimalDenotes(n / 10);
      assert Decimal(n)[..|Decimal(n)| - 1] == Decimal(n / 10);
    } else {
      assert Decimal(n)[..0] == "";
    }
  }

  // ---------- The second pass ----------

  predicate EndsRun(a: string) {
    a == "" || !IsToken(a[|a| - 1])
  }

  predicate StartsRun(b: string) {
    b == "" || !IsToken(b[0])
  }

  lemma RunOf(s: string, n: nat)
    requires n <= |s| && (forall i :: 0 <= i < n ==> IsBase64(s[i])) && (n < |s| ==> !IsBase64(s[n]))
    ensures Base64Run(s) == n
  {
    hide IsBase64, Base64Run;
    var k := Base64Run(s);
    assert k >= n && k <= n;
  }

  /** One step of the second pass: how far it gets and what it writes. */
  function Stride2(s: string): (k: nat)
    requires s != ""
    ensures 1 <= k <= |s|
  {
    if Base64Run(s) < 60 then 1 else Base64Run(s) + Padding(s[Base64Run(s)..])
  }

  function Writes2(s: string): string
    requires s != ""
  {
    if Base64Run(s) < 60 then [s[0]] else Mark(BASE64_LABEL, Stride2(s))
  }

  lemma Pass2Step(s: string)
    requires s != ""
    ensures Pass2(s) == Writes2(s) + Pass2(s[Stride2(s)..])
  {
    hide Base64Run, Padding, Mark;
  }

  /** What follows does not change a step, if the text ends a run. */
  lemma StrideStays(x: string, rest: string)
    requires x != "" && !IsBase64(x[|x| - 1]) && StartsOther(x, rest)
    ensures Stride2(x + rest) == Stride2(x) && Writes2(x + rest) == Writes2(x)
  {
    hide Mark, IsBase64, Base64Run;
    var n := Base64Run(x);
    assert n < |x|;
    RunOf(x + rest, n);
    PaddingStays(x, rest, n);
  }

  /** The rest does not continue a padding at the end of the text. */
  predicate StartsOther(x: string, rest: string) {
    rest == "" || rest[0] != '='
  }

  lemma PaddingStays(x: string, rest: string, n: nat)
    requires n < |x| && StartsOther(x, rest)
    ensures Padding((x + rest)[n..]) == Padding(x[n..])
  {
    assert (x + rest)[n..] == x[n..] + rest;
  }

  /** Dropping what a step took leaves a text that ends as before. */
  lemma EndStays(x: string, k: nat)
    requires k <= |x|
    ensures k < |x| ==> x[k..][|x[k..]| - 1] == x[|x| - 1]
    ensures k == |x| ==> x[k..] == ""
  {
  }

  /** The second pass treats what follows a run's end as if it began there. */
  lemma {:induction false} Pass2Apart(x: string, rest: string)
    requires x == "" || !IsBase64(x[|x| - 1])
    requires StartsOther(x, rest)
    ensures Pass2(x + rest) == Pass2(x) + Pass2(rest)
    decreases |x|
  {
    hide Pass2, IsBase64, Base64Run, Stride2, Writes2;
    if x == "" {
      assert x + rest == rest;
      Pass2OfNothing();
    } else {
      var k := Stride2(x);
      StrideStays(x, rest);
      Pass2Step(x + rest);
      Pass2Step(x);
      EndStays(x, k);
      TailOfSum(x, rest, k);
      Pass2Apart(x[k..], rest);
      Associates(Writes2(x), Pass2(x[k..]), Pass2(rest));
    }
  }

  lemma Pass2OfNothing()
    ensures Pass2("") == ""
  {
  }

  /** 60 or more base64 characters, `n` of them, and up to two '='. */
  predicate IsPadded(t: string, n: nat) {
    && 60 <= n <= |t| <= n + 2
    && (forall i :: 0 <= i < n ==> IsBase64(t[i]))
    && (forall i :: n <= i < |t| ==> t[i] == '=')
  }

  lemma PaddedInFront(t: string, n: nat, b: string)
    requires IsPadded(t, n) && StartsRun(b)
    ensures Pass2(t + b) == Mark(BASE64_LABEL, |t|) + Pass2(b)
  {
    hide Pass2, Mark, Base64Run;
    var s := t + b;
    assert n < |s| ==> !IsBase64(s[n]);
    RunOf(s, n);
    assert s[n..] == t[n..] + b;
    PaddingIs(t[n..], b);
    Pass2Step(s);
    assert s[|t|..] == b;
  }

  lemma PaddingIs(p: string, b: string)
    requires |p| <= 2 && (forall i :: 0 <= i < |p| ==> p[i] == '=') && StartsRun(b)
    ensures Padding(p + b) == |p|
  {
    if p != "" {
      assert (p + b)[0] == '=';
      assert |p| == 2 ==> (p + b)[1] == '=';
      assert |p| == 1 && b != "" ==> (p + b)[1] == b[0];
    }
  }

  /** A padded run that stands by itself is replaced by a mark that says how long it was,
      and the text on either side is treated as if it stood alone. */
  lemma RunIsReplaced(a: string, t: string, n: nat, b: string)
    requires IsPadded(t, n) && EndsRun(a) && StartsRun(b)
    ensures Pass2(a + t + b) == Pass2(a) + Mark(BASE64_LABEL, |t|) + Pass2(b)
  {
    hide Pass2, Mark;
    assert a + t + b == a + (t + b);
    assert (t + b)[0] == t[0] && IsBase64(t[0]);
    Pass2Apart(a, t + b);
    PaddedInFront(t, n, b);
    assert Pass2(a) + (Mark(BASE64_LABEL, |t|) + Pass2(b)) == Pass2(a) + Mark(BASE64_LABEL, |t|) + Pass2(b);
  }

  /** No 60 base64 characters in a row. */
  predicate NoLongBase64(s: string) {
    s == "" || (Base64Run(s) < 60 && NoLongBase64(s[1..]))
  }

  /** Such a text is left alone if it ends a run or the rest does not go on with one. */
  lemma {:induction false} Pass2Leaves(t: string, b: string)
    requires NoLongBase64(t) && (StartsRun(b) || (t != "" && !IsToken(t[|t| - 1])))
    ensures Pass2(t + b) == t + Pass2(b)
  {
    hide Pass2, Base64Run;
    if t == "" {
      assert t + b == b;
    } else {
      var n := Base64Run(t);
      assert n < |t| + |b| ==> !IsBase64((t + b)[n]);
      RunOf(t + b, n);
      Pass2Step(t + b);
      assert (t + b)[1..] == t[1..] + b;
      if |t| == 1 {
        assert t[1..] + b == b;
      } else {
        Pass2Leaves(t[1..], b);
      }
      assert [t[0]] + (t[1..] + Pass2(b)) == t + Pass2(b);
    }
  }

  lemma {:induction false} ShortRunsOnly(s: string)
    requires !FindsLongToken(s)
    ensures NoLongBase64(s)
  {
    hide TokenRun, Base64Run;
    if s != "" {
      RunOfTokens(s);
      ShortRunsOnly(s[1..]);
    }
  }

  // ---------- The last pass ----------

  /** The last pass too treats what follows a run's end as if it began there. */
  lemma {:induction false} Pass3Apart(x: string, rest: string)
    requires EndsRun(x)
    ensures Pass3(x + rest) == Pass3(x) + Pass3(rest)
    decreases |x|
  {
    hide Pass3, EndsRun, TokenRun, Mark;
    if x == "" {
      assert x + rest == rest;
      EmptyPass3();
    } else {
      var n := TokenRun(x);
      TokenRunStays(x, rest);
      var k := if n < LONG_TOKEN_THRESHOLD then 1 else n;
      var pre := if n < LONG_TOKEN_THRESHOLD then [x[0]] else Mark(TOKEN_LABEL, n);
      Pass3Step(x + rest, n);
      Pass3Step(x, n);
      TailEndsRun(x, k);
      TailOfSum(x, rest, k);
      Pass3Apart(x[k..], rest);
      Associates(pre, Pass3(x[k..]), Pass3(rest));
    }
  }

  lemma TokenRunStays(x: string, rest: string)
    requires x != "" && EndsRun(x)
    ensures TokenRun(x) < |x| && TokenRun(x + rest) == TokenRun(x)
  {
    hide IsToken, TokenRun;
    RunIs(x + rest, TokenRun(x));
  }

  lemma TailEndsRun(x: string, k: nat)
    requires k <= |x| && EndsRun(x)
    ensures EndsRun(x[k..])
  {
    EndStays(x, k);
  }

  lemma TailOfSum(x: string, rest: string, k: nat)
    requires k <= |x|
    ensures (x + rest)[k..] == x[k..] + rest
  {
  }

  lemma Associates(a: string, b: string, c: string)
    ensures a + (b + c) == a + b + c
  {
  }

  /** Nothing in a neutral text is touched by the last two passes, and it keeps what is
      around it apart. */
  lemma NeutralStays(a: string, m: string, b: string)
    requires Neutral(m)
    ensures Pass2(a + m + b) == Pass2(a) + m + Pass2(b)
    ensures Pass3(a + m + b) == Pass3(a) + m + Pass3(b)
  {
    hide Pass2, Pass3, FindsLongToken, NoLongBase64, IsToken;
    ShortRunsOnly(m);
    NeutralIn2(a, m, b);
    NeutralIn3(a, m, b);
  }

  lemma NeutralIn3(a: string, m: string, b: string)
    requires Neutral(m)
    ensures Pass3(a + m + b) == Pass3(a) + m + Pass3(b)
  {
    hide Pass3, FindsLongToken, IsToken;
    var head := a + [m[0]];
    assert a + m + b == head + (m[1..] + b) && head + m[1..] == a + m;
    RestOfRun(a, m[0]);
    Pass3Apart(head, m[1..] + b);
    Pass3Apart([m[0]], m[1..] + b);
    assert [m[0]] + (m[1..] + b) == m + b;
    Pass3Apart(m, b);
    CleanThrough3(m);
    OneIsKept(m[0]);
    assert Pass3(m + b) == m + Pass3(b);
    assert Pass3(a) + [m[0]] + Pass3(m[1..] + b) == Pass3(a) + ([m[0]] + Pass3(m[1..] + b));
    assert Pass3(a) + (m + Pass3(b)) == Pass3(a) + m + Pass3(b);
  }

  lemma OneIsKept(ch: char)
    requires !IsToken(ch)
    ensures Pass3([ch]) == [ch]
  {
    hide IsToken;
    Pass3Step([ch], 0);
    EmptyPass3();
  }

  /** A run is over at the first other character. */
  lemma {:induction false} RestOfRun(a: string, ch: char)
    requires !IsToken(ch)
    ensures Pass3(a + [ch]) == Pass3(a) + [ch]
    decreases |a|
  {
    hide Pass3, IsToken, TokenRun, Mark;
    if a == "" {
      assert a + [ch] == [ch];
      EmptyPass3();
      OneIsKept(ch);
    } else {
      var n := TokenRun(a);
      assert n < |a| ==> !IsToken((a + [ch])[n]);
      RunIs(a + [ch], n);
      var k := if n < LONG_TOKEN_THRESHOLD then 1 else n;
      var pre := if n < LONG_TOKEN_THRESHOLD then [a[0]] else Mark(TOKEN_LABEL, n);
      Pass3Step(a + [ch], n);
      Pass3Step(a, n);
      TailOfSum(a, [ch], k);
      RestOfRun(a[k..], ch);
      Associates(pre, Pass3(a[k..]), [ch]);
    }
  }

  lemma NeutralIn2(a: string, m: string, b: string)
    requires Neutral(m) && NoLongBase64(m)
    ensures Pass2(a + m + b) == Pass2(a) + m + Pass2(b)
  {
    hide Pass2, FindsLongToken, NoLongBase64;
    RestOfBase64(a, m + b);
    Pass2Leaves(m, b);
    assert a + m + b == a + (m + b);
    assert Pass2(a) + (m + Pass2(b)) == Pass2(a) + m + Pass2(b);
  }

  /** A run of base64 characters is over at the first character that is no token. */
  lemma {:induction false} RestOfBase64(a: string, rest: string)
    requires rest != "" && !IsToken(rest[0])
    ensures Pass2(a + rest) == Pass2(a) + Pass2(rest)
    decreases |a|
  {
    hide Pass2, Base64Run, Mark;
    if a == "" {
      assert a + rest == rest;
      Pass2OfNothing();
    } else {
      var n := Base64Run(a);
      assert !IsBase64((a + rest)[n]);
      RunOf(a + rest, n);
      assert (a + rest)[n..] == a[n..] + rest;
      PaddingEnds(a[n..], rest);
      var k := Stride2(a);
      Pass2Step(a + rest);
      Pass2Step(a);
      TailOfSum(a, rest, k);
      RestOfBase64(a[k..], rest);
      Associates(Writes2(a), Pass2(a[k..]), Pass2(rest));
    }
  }

  lemma PaddingEnds(p: string, rest: string)
    requires rest != "" && rest[0] != '='
    ensures Padding(p + rest) == Padding(p)
  {
    if p != "" {
      assert (p + rest)[0] == p[0];
      assert |p| == 1 ==> (p + rest)[1] == rest[0];
    } else {
      assert p + rest == rest;
    }
  }

  // ---------- The first pass ----------

  /** Token characters, one of them no digit: no array reaches over them. */
  predicate Blocks(t: string) {
    && (forall i :: 0 <= i < |t| ==> IsToken(t[i]))
    && exists i :: 0 <= i < |t| && !IsDigit(t[i])
  }

  lemma {:induction false} ScanIsBlocked(t: string, b: string, p: Place, count: nat)
    requires Blocks(t)
    ensures ScanArray(t + b, p, count) == None
  {
    assert (t + b)[0] == t[0] && (t + b)[1..] == t[1..] + b;
    if IsDigit(t[0]) {
      assert Blocks(t[1..]) by {
        var i :| 0 <= i < |t| && !IsDigit(t[i]);
        assert t[1..][i - 1] == t[i];
      }
      ScanIsBlocked(t[1..], b, Inside, count);
    }
  }

  lemma {:induction false} ScanStopsThere(a: string, t: string, b: string, p: Place, count: nat)
    requires Blocks(t)
    ensures ScanArray(a + (t + b), p, count) == ScanArray(a, p, count)
  {
    hide Blocks;
    if a == "" {
      assert a + (t + b) == t + b;
      ScanIsBlocked(t, b, p, count);
    } else {
      assert (a + (t + b))[0] == a[0] && (a + (t + b))[1..] == a[1..] + (t + b);
      var next := NextPlace(a[0], p);
      if next.Some? {
        ScanStopsThere(a[1..], t, b, next.value, if a[0] == ',' then count + 1 else count);
      }
    }
  }

  lemma ArrayStopsThere(a: string, t: string, b: string)
    requires a != "" && Blocks(t)
    ensures ArrayHere(a + (t + b)) == ArrayHere(a)
  {
    hide ScanArray, Blocks;
    assert (a + (t + b))[0] == a[0] && (a + (t + b))[1..] == a[1..] + (t + b);
    ScanStopsThere(a[1..], t, b, Wanting, 0);
  }

  lemma {:induction false} TokensAreNoArray(t: string, b: string)
    requires forall i :: 0 <= i < |t| ==> IsToken(t[i])
    ensures Pass1(t + b) == t + Pass1(b)
  {
    hide Pass1;
    if t == "" {
      assert t + b == b;
    } else {
      assert (t + b)[0] == t[0] && (t + b)[1..] == t[1..] + b;
      Pass1Step(t + b);
      TokensAreNoArray(t[1..], b);
      assert [t[0]] + (t[1..] + Pass1(b)) == t + Pass1(b);
    }
  }

  /** The first pass leaves such a token, and keeps what is around it apart. */
  lemma {:induction false} BlockStays(a: string, t: string, b: string)
    requires Blocks(t)
    ensures Pass1(a + t + b) == Pass1(a) + t + Pass1(b)
    decreases |a|
  {
    hide Pass1, ArrayHere, Blocks;
    if a == "" {
      assert a + t + b == t + b;
      AllTokens(t);
      TokensAreNoArray(t, b);
      Pass1OfNothing();
    } else {
      assert a + t + b == a + (t + b);
      ArrayStopsThere(a, t, b);
      Pass1Step(a);
      Pass1Step(a + t + b);
      var k := if ArrayHere(a).Some? then ArrayHere(a).value else 1;
      DropFront(a, t, b, k);
      BlockStays(a[k..], t, b);
      Regroup(if ArrayHere(a).Some? then ARRAY_MARK else [a[0]], Pass1(a[k..]), t, Pass1(b));
    }
  }

  lemma AllTokens(t: string)
    requires Blocks(t)
    ensures forall i :: 0 <= i < |t| ==> IsToken(t[i])
  {
  }

  // ---------- Ends of a text stay ends ----------

  lemma {:induction false} Edges1(s: string)
    ensures EndsRun(s) ==> EndsRun(Pass1(s))
    ensures StartsRun(s) ==> StartsRun(Pass1(s))
    ensures s != "" ==> Pass1(s) != ""
  {
    hide Pass1, ArrayHere, IsToken;
    if s == "" {
      Pass1OfNothing();
    } else {
      Pass1Step(s);
      var k := if ArrayHere(s).Some? then ArrayHere(s).value else 1;
      Edges1(s[k..]);
      EndStays(s, k);
      MarkEnds();
      Pass1OfNothing();
    }
  }

  lemma MarkEnds()
    ensures !IsToken(ARRAY_MARK[0]) && !IsToken(ARRAY_MARK[|ARRAY_MARK| - 1]) && ARRAY_MARK != ""
  {
  }

  lemma {:induction false} Edges2(s: string)
    ensures EndsRun(s) ==> EndsRun(Pass2(s))
    ensures StartsRun(s) ==> StartsRun(Pass2(s))
    ensures s != "" ==> Pass2(s) != ""
    decreases |s|
  {
    hide Pass2, Base64Run, IsToken, Stride2, Writes2;
    if s == "" {
      Pass2OfNothing();
    } else {
      Pass2Step(s);
      Edges2(s[Stride2(s)..]);
      EndStays(s, Stride2(s));
      WrittenEnds(s);
      Pass2OfNothing();
    }
  }

  lemma WrittenEnds(s: string)
    requires s != ""
    ensures var w := Writes2(s);
            w != "" && ((w == [s[0]] && Stride2(s) == 1) || (!IsToken(w[0]) && !IsToken(w[|w| - 1])))
  {
    hide Base64Run, Decimal, Padding;
  }

  // ---------- The laws of redaction ----------

  lemma RedactIsPasses(s: string)
    ensures RedactSecrets(s) == Pass3(Pass2(Pass1(s)))
  {
    hide ArrayHere, Base64Run, TokenRun;
  }

  /** An array of 64 numbers becomes its mark wherever it stands, and what is on either
      side is redacted as if it stood alone. */
  lemma ArrayLaw(a: string, t: string, b: string)
    requires IsNumberArray(t)
    ensures RedactSecrets(a + t + b) == RedactSecrets(a) + ARRAY_MARK + RedactSecrets(b)
  {
    hide Pass1, Pass2, Pass3, IsNumberArray, RedactSecrets, Neutral;
    RedactIsPasses(a + t + b);
    RedactIsPasses(a);
    RedactIsPasses(b);
    ArrayIsReplaced(a, t, b);
    PositivePower();
    MarksAreNeutral(0);
    NeutralStays(Pass1(a), ARRAY_MARK, Pass1(b));
    NeutralStays(Pass2(Pass1(a)), ARRAY_MARK, Pass2(Pass1(b)));
  }

  lemma PositivePower()
    ensures 0 < Pow10(39)
  {
    hide Pow10;
    PowersArePositive(39);
  }

  /** 60 or more base64 characters, not all digits, with up to two '=', that stand by
      themselves become a mark that says how many they were. */
  lemma Base64Law(a: string, t: string, n: nat, b: string)
    requires IsPadded(t, n) && Blocks(t) && EndsRun(a) && StartsRun(b) && |t| < Pow10(39)
    ensures RedactSecrets(a + t + b) == RedactSecrets(a) + Mark(BASE64_LABEL, |t|) + RedactSecrets(b)
  {
    hide Pass1, Pass2, Pass3, RedactSecrets, Neutral, Mark, IsPadded, Blocks, EndsRun, StartsRun, Pow10;
    RedactIsPasses(a + t + b);
    RedactIsPasses(a);
    RedactIsPasses(b);
    BlockStays(a, t, b);
    Edges1(a);
    Edges1(b);
    RunIsReplaced(Pass1(a), t, n, Pass1(b));
    MarksAreNeutral(|t|);
    NeutralStays(Pass2(Pass1(a)), Mark(BASE64_LABEL, |t|), Pass2(Pass1(b)));
  }

  /** Any other token of 40 or more characters that stands by itself, not all digits,
      becomes the other mark. */
  lemma TokenLaw(a: string, t: string, b: string)
    requires |t| >= LONG_TOKEN_THRESHOLD && NoLongBase64(t) && Blocks(t) && EndsRun(a) && StartsRun(b)
    ensures RedactSecrets(a + t + b) == RedactSecrets(a) + Mark(TOKEN_LABEL, |t|) + RedactSecrets(b)
  {
    hide Pass1, Pass2, Pass3, RedactSecrets, Mark, Blocks, EndsRun, StartsRun, NoLongBase64;
    RedactIsPasses(a + t + b);
    RedactIsPasses(a);
    RedactIsPasses(b);
    BlockStays(a, t, b);
    Edges1(a);
    Edges1(b);
    TokenThrough2(Pass1(a), t, Pass1(b));
    Edges2(Pass1(a));
    Edges2(Pass1(b));
    TokenThrough3(Pass2(Pass1(a)), t, Pass2(Pass1(b)));
  }

  lemma TokenThrough2(a: string, t: string, b: string)
    requires t != "" && NoLongBase64(t) && Blocks(t) && EndsRun(a) && StartsRun(b)
    ensures Pass2(a + t + b) == Pass2(a) + t + Pass2(b)
  {
    hide Pass2, NoLongBase64;
    assert a + t + b == a + (t + b);
    if a != "" {
      var head := a[..|a| - 1];
      var ch := a[|a| - 1];
      assert a == head + [ch] && a + (t + b) == head + ([ch] + (t + b));
      RestOfBase64(head, [ch] + (t + b));
      RestOfBase64(head, [ch]);
      LoneChar(ch, t + b);
      LoneChar(ch, "");
      assert [ch] + "" == [ch];
      Pass2OfNothing();
      assert Pass2(head) + ([ch] + Pass2(t + b)) == Pass2(head) + [ch] + Pass2(t + b);
      assert Pass2(a + (t + b)) == Pass2(a) + Pass2(t + b);
    } else {
      assert a + (t + b) == t + b;
      Pass2OfNothing();
    }
    Pass2Leaves(t, b);
    assert Pass2(a) + (t + Pass2(b)) == Pass2(a) + t + Pass2(b);
  }

  lemma LoneChar(ch: char, s: string)
    requires !IsToken(ch)
    ensures Pass2([ch] + s) == [ch] + Pass2(s)
  {
    hide Pass2;
    RunOf([ch] + s, 0);
    Pass2Step([ch] + s);
    assert ([ch] + s)[1..] == s;
  }

  lemma TokenThrough3(a: string, t: string, b: string)
    requires |t| >= LONG_TOKEN_THRESHOLD && Blocks(t) && EndsRun(a) && StartsRun(b)
    ensures Pass3(a + t + b) == Pass3(a) + Mark(TOKEN_LABEL, |t|) + Pass3(b)
  {
    hide Pass3, Mark;
    TokenIsReplaced(a, t, b);
  }

  /** In a text that holds nothing else to redact, the secret becomes its mark and every
      other character stays where it was. */
  lemma OnlyTheSecret(a: string, t: string, n: nat, b: string)
    requires !HoldsLongToken(a) && !HoldsNumberArray(a) && !HoldsLongToken(b) && !HoldsNumberArray(b)
    ensures IsNumberArray(t) ==> RedactSecrets(a + t + b) == a + ARRAY_MARK + b
    ensures IsPadded(t, n) && Blocks(t) && EndsRun(a) && StartsRun(b) && Writable(a + t + b) ==>
              RedactSecrets(a + t + b) == a + Mark(BASE64_LABEL, |t|) + b
    ensures 40 <= |t| < 60 && Blocks(t) && EndsRun(a) && StartsRun(b) ==>
              RedactSecrets(a + t + b) == a + Mark(TOKEN_LABEL, |t|) + b
  {
    hide HoldsLongToken, HoldsNumberArray, RedactSecrets, IsNumberArray, IsPadded, Blocks, EndsRun, StartsRun, Mark, Pow10;
    CleanIsKept(a);
    CleanIsKept(b);
    if IsNumberArray(t) {
      ArrayLaw(a, t, b);
    }
    if IsPadded(t, n) && Blocks(t) && EndsRun(a) && StartsRun(b) && Writable(a + t + b) {
      Base64Law(a, t, n, b);
    }
    if 40 <= |t| < 60 && Blocks(t) && EndsRun(a) && StartsRun(b) {
      ShortIsNoLongRun(t);
      TokenLaw(a, t, b);
    }
  }

  lemma {:induction false} ShortIsNoLongRun(t: string)
    requires |t| < 60
    ensures NoLongBase64(t)
  {
    hide Base64Run;
    if t != "" {
      ShortIsNoLongRun(t[1..]);
    }
  }

  // ---------- What keys look like in a log ----------

  /** The redactor's alphabet is the encoders': base64 is what `Envelope` reads as such. */
  lemma SameAlphabet(ch: char)
    ensures IsBase64(ch) <==> Value64(ch).Some?
    ensures IsToken(ch) <==> Value64(ch).Some? || ch == '='
  {
  }

  lemma {:induction false} EncodedIsToken(b: bytes)
    ensures forall i :: 0 <= i < |ToBase64(b)| ==> IsToken(ToBase64(b)[i])
  {
    hide IsToken, Value64, Char64;
    if |b| == 1 {
      LetterIsToken(b[0] / 4);
      LetterIsToken(b[0] % 4 * 16);
      SameAlphabet('=');
    } else if |b| == 2 {
      LetterIsToken(b[0] / 4);
      LetterIsToken(b[0] % 4 * 16 + b[1] / 16);
      LetterIsToken(b[1] % 16 * 4);
      SameAlphabet('=');
    } else if |b| >= 3 {
      EncodedIsToken(b[3..]);
      var v := Four(b[0], b[1], b[2]);
      LetterIsToken(v[0]);
      LetterIsToken(v[1]);
      LetterIsToken(v[2]);
      LetterIsToken(v[3]);
    }
  }

  lemma LetterIsToken(v: int)
    requires 0 <= v < 64
    ensures IsToken(Char64(v))
  {
    hide Value64, Char64, IsToken;
    ValueOfChar(v);
    SameAlphabet(Char64(v));
  }

  lemma {:induction false} DigitsAreTokens(n: nat)
    ensures forall i :: 0 <= i < |Digits(n)| ==> IsToken(Digits(n)[i])
  {
    hide IsToken, Letter;
    if n > 0 {
      DigitsAreTokens(n / 58);
      Letter58IsToken(n % 58);
    }
  }

  lemma Letter58IsToken(d: int)
    requires 0 <= d < 58
    ensures IsToken(Letter(d))
  {
    AlphabetCodes(d);
  }

  lemma {:induction false} OnesAreTokens(k: nat)
    ensures |Ones(k)| == k && forall i :: 0 <= i < |Ones(k)| ==> IsToken(Ones(k)[i])
  {
  }

  /** No base58 text is shorter than what it encodes. */
  lemma EncodedIsLonger(b: bytes)
    ensures |Encode(b)| >= |b|
  {
    hide Pow, Digits, Number, LeadingZeros;
    var z := LeadingZeros(b);
    NumberRange(b);
    BytesAreZerosAndMinimal(b);
    OnesAreTokens(z);
    if z < |b| {
      PowGrows(58, 256, |b| - z - 1);
      DigitsLower(Number(b), |b| - z - 1);
    }
  }

  /** A secret of 40 bytes or more, a staked key of 64 among them, is a long token in
      base58 and in base64, so that no log line that has it is left as it was. */
  lemma KeysAreSeen(secret: bytes)
    requires |secret| >= 40
    ensures HoldsLongToken(Encode(secret)) && HoldsLongToken(ToBase64(secret))
  {
    hide IsToken, Digits, Ones, ToBase64;
    EncodedIsLonger(secret);
    DigitsAreTokens(Number(secret));
    OnesAreTokens(LeadingZeros(secret));
    assert TokenAt(Encode(secret), 0, LONG_TOKEN_THRESHOLD);
    EncodedIsToken(secret);
    EnvelopeLaws.EncodedLength(secret);
    assert TokenAt(ToBase64(secret), 0, LONG_TOKEN_THRESHOLD);
  }
}
