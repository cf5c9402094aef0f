/** The check of step 8: whether one look at the cluster's validator list shows a key
    voting, and what the check is worth. */
module VotingCheck {
  import opened Protocol
  import opened QuietGate

  /** The entry is not delinquent and has voted. */
  predicate Votes(v: Validator) {
    v.delinquent == Some(false) && v.lastVote.Some? && v.lastVote.value > 0
  }

  /** The code's test: the list's first entry for the key votes. A poll that threw and
      an answer without a list show nothing. */
  predicate ShowsVoting(p: Poll, pubkey: string) {
    p.Returned? && p.validators.Some?
    && match FindValidator(p.validators.value, pubkey)
       case None => false
       case Some(v) => Votes(v)
  }

  /** What the check is for: the list has the key, and every entry it has for it votes. */
  predicate SeenVoting(p: Poll, pubkey: string) {
    && p.Returned? && p.validators.Some?
    && (exists i :: 0 <= i < |p.validators.value| && p.validators.value[i].identityPubkey == pubkey)
    && (forall i :: 0 <= i < |p.validators.value| && p.validators.value[i].identityPubkey == pubkey ==>
          Votes(p.validators.value[i]))
  }

  /** The list's first entry for the key votes and a later one does not. */
  predicate FirstVoterOfSeveral(vs: seq<Validator>, pubkey: string) {
    exists i, j :: 0 <= i < j < |vs|
                   && vs[i].identityPubkey == pubkey && Votes(vs[i]) && (forall k :: 0 <= k < i ==> vs[k].identityPubkey != pubkey)
                   && vs[j].identityPubkey == pubkey && !Votes(vs[j])
  }

  /** The test, entry by entry: the first that carries the key is marked as not
      delinquent and has a last vote above zero. */
  lemma ShowsVotingExactly(p: Poll, pubkey: string)
    ensures ShowsVoting(p, pubkey) <==>
            && p.Returned? && p.validators.Some?
            && exists i :: 0 <= i < |p.validators.value| && p.validators.value[i].identityPubkey == pubkey
                           && (forall j :: 0 <= j < i ==> p.validators.value[j].identityPubkey != pubkey)
                           && p.validators.value[i].delinquent == Some(false)
                           && p.validators.value[i].lastVote.Some? && p.validators.value[i].lastVote.value > 0
  {
    hide FindValidator;
    if p.Returned? && p.validators.Some? {
      var vs := p.validators.value;
      var found := FindValidator(vs, pubkey);
      if found.Some? {
        var i :| 0 <= i < |vs| && vs[i] == found.value && vs[i].identityPubkey == pubkey
                 && forall j :: 0 <= j < i ==> vs[j].identityPubkey != pubkey;
        forall k | 0 <= k < |vs| && vs[k].identityPubkey == pubkey && forall j :: 0 <= j < k ==> vs[j].identityPubkey != pubkey
          ensures k == i
        {
        }
      }
    }
  }

  /** The check never overlooks a key that was seen voting; it takes one for voting
      that was not exactly when an entry that votes comes before one that does not. */
  lemma CheckErrsExactly(p: Poll, pubkey: string)
    ensures SeenVoting(p, pubkey) ==> ShowsVoting(p, pubkey)
    ensures ShowsVoting(p, pubkey) && !SeenVoting(p, pubkey)
       <==> p.Returned? && p.validators.Some? && FirstVoterOfSeveral(p.validators.value, pubkey)
  {
    hide FindValidator, Votes;
    if p.Returned? && p.validators.Some? {
      var vs := p.validators.value;
      var found := FindValidator(vs, pubkey);
      if found.Some? {
        var i :| 0 <= i < |vs| && vs[i] == found.value && vs[i].identityPubkey == pubkey
                 && forall j :: 0 <= j < i ==> vs[j].identityPubkey != pubkey;
        if FirstVoterOfSeveral(vs, pubkey) {
          var i', j :| 0 <= i' < j < |vs| && vs[i'].identityPubkey == pubkey && Votes(vs[i'])
                       && (forall k :: 0 <= k < i' ==> vs[k].identityPubkey != pubkey)
                       && vs[j].identityPubkey == pubkey && !Votes(vs[j]);
          assert i' == i;
        }
        if ShowsVoting(p, pubkey) && !SeenVoting(p, pubkey) {
          var j :| 0 <= j < |vs| && vs[j].identityPubkey == pubkey && !Votes(vs[j]);
          assert i < j;
        }
      }
    }
  }

  /** No poll shows a key both quiet and voting. */
  lemma NeverBoth(p: Poll, pubkey: string)
    ensures SeenQuiet(p, pubkey) ==> !ShowsVoting(p, pubkey)
    ensures ShowsQuiet(p, pubkey) ==> !ShowsVoting(p, pubkey)
  {
    hide FindValidator;
    GatePassesUnseenExactly(p, pubkey);
  }
}
