/** The anti-dual-identity gate's test of one poll of the cluster's validator list,
    and what the test is worth. */
module QuietGate {
  import opened Protocol

  /** An entry of the cluster's validator list; fields may be missing. */
  datatype Validator = Validator(identityPubkey: string, delinquent: Option<bool>, lastVote: Option<int>)

  /** One poll: it threw, or it returned a document with or without a list. */
  datatype Poll = Threw | Returned(validators: Option<seq<Validator>>)

  /** `found` is the first entry that carries the key, or there is none. */
  predicate IsFirst(vs: seq<Validator>, pubkey: string, found: Option<Validator>) {
    match found
    case None => forall i :: 0 <= i < |vs| ==> vs[i].identityPubkey != pubkey
    case Some(v) =>
      exists i :: 0 <= i < |vs| && vs[i] == v && v.identityPubkey == pubkey
                  && forall j :: 0 <= j < i ==> vs[j].identityPubkey != pubkey
  }

  function FindValidator(vs: seq<Validator>, pubkey: string): (found: Option<Validator>)
    ensures IsFirst(vs, pubkey, found)
  {
    if vs == [] then None
    else if vs[0].identityPubkey == pubkey then Some(vs[0])
    else
      var found := FindValidator(vs[1..], pubkey);
      FirstInTail(vs, pubkey, found);
      found
  }

  lemma FirstInTail(vs: seq<Validator>, pubkey: string, found: Option<Validator>)
    requires vs != [] && vs[0].identityPubkey != pubkey && IsFirst(vs[1..], pubkey, found)
    ensures IsFirst(vs, pubkey, found)
  {
    assert forall i :: 0 <= i < |vs[1..]| ==> vs[1..][i] == vs[i + 1];
    if found.Some? {
      var i :| 0 <= i < |vs[1..]| && vs[1..][i] == found.value
               && forall j :: 0 <= j < i ==> vs[1..][j].identityPubkey != pubkey;
      assert vs[i + 1] == found.value;
      assert forall j :: 0 < j < i + 1 ==> vs[j] == vs[1..][j - 1];
    }
  }

  /** The gate's test: no list, no entry for the source, or a delinquent first entry. */
  predicate ShowsQuiet(p: Poll, source: string) {
    p.Returned?
    && (p.validators.None?
        || match FindValidator(p.validators.value, source)
           case None => true
           case Some(v) => v.delinquent == Some(true))
  }

  /** What the gate is for: the cluster's list is there and every entry it has for the
      source is delinquent, so the source was seen absent or not voting. */
  predicate SeenQuiet(p: Poll, source: string) {
    && p.Returned? && p.validators.Some?
    && forall i :: 0 <= i < |p.validators.value| && p.validators.value[i].identityPubkey == source ==>
         p.validators.value[i].delinquent == Some(true)
  }

  /** The list's first entry for the source is delinquent and a later one is not. */
  predicate FirstOfSeveral(vs: seq<Validator>, source: string) {
    exists i, j :: 0 <= i < j < |vs|
                   && vs[i].identityPubkey == source && vs[i].delinquent == Some(true)
                   && (forall k :: 0 <= k < i ==> vs[k].identityPubkey != source)
                   && vs[j].identityPubkey == source && vs[j].delinquent != Some(true)
  }

  /** The gate never stops a source that was seen quiet; it passes one that was not
      exactly when the answer has no list, or a delinquent entry for the source comes
      before one that is not. */
  lemma GatePassesUnseenExactly(p: Poll, source: string)
    ensures SeenQuiet(p, source) ==> ShowsQuiet(p, source)
    ensures ShowsQuiet(p, source) && !SeenQuiet(p, source)
       <==> p.Returned? && (p.validators.None? || FirstOfSeveral(p.validators.value, source))
  {
    if p.Returned? && p.validators.Some? {
      ListPassesUnseenExactly(p.validators.value, source);
    }
  }

  lemma ListPassesUnseenExactly(vs: seq<Validator>, source: string)
    ensures var p := Returned(Some(vs));
            && (SeenQuiet(p, source) ==> ShowsQuiet(p, source))
            && (ShowsQuiet(p, source) && !SeenQuiet(p, source) <==> FirstOfSeveral(vs, source))
  {
    hide FindValidator;
    var p := Returned(Some(vs));
    var found := FindValidator(vs, source);
    if found.Some? {
      var i :| 0 <= i < |vs| && vs[i] == found.value && vs[i].identityPubkey == source
               && forall j :: 0 <= j < i ==> vs[j].identityPubkey != source;
      if FirstOfSeveral(vs, source) {
        var i', j :| 0 <= i' < j < |vs|
                     && vs[i'].identityPubkey == source && vs[i'].delinquent == Some(true)
                     && (forall k :: 0 <= k < i' ==> vs[k].identityPubkey != source)
                     && vs[j].identityPubkey == source && vs[j].delinquent != Some(true);
        assert i' == i;
      }
      if ShowsQuiet(p, source) && !SeenQuiet(p, source) {
        var j :| 0 <= j < |vs| && vs[j].identityPubkey == source && vs[j].delinquent != Some(true);
        assert i < j;
      }
    }
  }

  /** Two answers that pass although the source was not seen quiet. */
  lemma UnseenSourcesPass(source: string)
    ensures ShowsQuiet(Returned(None), source) && !SeenQuiet(Returned(None), source)
    ensures var p := Returned(Some([Validator(source, Some(true), None), Validator(source, Some(false), None)]));
            ShowsQuiet(p, source) && !SeenQuiet(p, source)
  {
    var vs := [Validator(source, Some(true), None), Validator(source, Some(false), None)];
    assert vs[0].identityPubkey == source && vs[0].delinquent == Some(true) && vs[1].identityPubkey == source;
    assert FirstOfSeveral(vs, source);
    ListPassesUnseenExactly(vs, source);
  }
}
