/** Agreement on a receipt: it is final once every participant has signed it. Signatures are tokens that cannot be
    forged; `genuine` is the set of those that check out at the time of the call. */
module Consensus {
  import opened Chips
  import opened Holdem
  import opened Bytes
  import opened Receipts

  datatype Signature<H> = Signature(certificate: Certificate, signed: Receipt<H>)

  datatype CoSigned<H> = CoSigned(receipt: Receipt<H>, signatures: seq<Signature<H>>)

  /** The signature belongs to the receipt: a participant made it with the device the receipt names. */
  predicate Fits<H(==)>(s: Signature<H>, r: Receipt<H>) {
    && ValidReceipt(r) && s.signed == r
    && OutcomeFor(r, s.certificate.player).Some?
    && OutcomeFor(r, s.certificate.player).value.device == s.certificate.device
  }

  predicate VerifiesFor<H(==)>(s: Signature<H>, r: Receipt<H>, genuine: set<Signature<H>>) {
    Fits(s, r) && s in genuine
  }

  // ----- Co-signed receipts -----

  ghost predicate SignersDistinct<H>(signatures: seq<Signature<H>>) {
    forall i, j :: 0 <= i < j < |signatures| ==> signatures[i].certificate.player != signatures[j].certificate.player
  }

  function Signers<H>(signatures: seq<Signature<H>>): (r: set<PlayerId>)
    ensures forall p :: p in r <==> exists i :: 0 <= i < |signatures| && signatures[i].certificate.player == p
  {
    set i | 0 <= i < |signatures| :: signatures[i].certificate.player
  }

  function Participants<H>(r: Receipt<H>): (players: set<PlayerId>)
    ensures forall p :: p in players <==> exists i :: 0 <= i < |r.outcomes| && r.outcomes[i].player == p
  {
    set i | 0 <= i < |r.outcomes| :: r.outcomes[i].player
  }

  lemma {:induction false} OneMoreSigner<H>(signatures: seq<Signature<H>>, n: nat)
    requires n < |signatures|
    ensures var (front, last) := (signatures[..n], signatures[n].certificate.player);
            && Signers(signatures[..n + 1]) == Signers(front) + {last}
            && (SignersDistinct(signatures[..n + 1]) <==> SignersDistinct(front) && last !in Signers(front))
  {
    var (front, all, last) := (signatures[..n], signatures[..n + 1], signatures[n].certificate.player);
    assert all == front + [signatures[n]];
    assert forall p :: p in Signers(all) <==> p in Signers(front) || p == last by {
      forall p | p in Signers(front) ensures p in Signers(all) {
        var i :| 0 <= i < n && front[i].certificate.player == p;
        assert all[i] == front[i];
      }
      assert all[n].certificate.player == last;
    }
    if last in Signers(front) {
      var i :| 0 <= i < n && front[i].certificate.player == last;
      assert all[i].certificate.player == all[n].certificate.player;
    }
    if SignersDistinct(all) { assert forall i :: 0 <= i < n ==> front[i] == all[i]; }
  }

  lemma {:induction false} SignersCount<H>(signatures: seq<Signature<H>>)
    requires SignersDistinct(signatures)
    ensures |Signers(signatures)| == |signatures|
  {
    if |signatures| > 0 {
      var n := |signatures| - 1;
      assert signatures[..n + 1] == signatures;
      OneMoreSigner(signatures, n);
      hide Signers, SignersDistinct;
      SignersCount(signatures[..n]);
    }
  }

  lemma {:induction false} ParticipantsCount(outcomes: seq<HandOutcome>)
    requires PlayersAscend(outcomes)
    ensures |set i | 0 <= i < |outcomes| :: outcomes[i].player| == |outcomes|
  {
    if |outcomes| > 0 {
      var n := |outcomes| - 1;
      ParticipantsCount(outcomes[..n]);
      var front := set i | 0 <= i < n :: outcomes[..n][i].player;
      assert (set i | 0 <= i < |outcomes| :: outcomes[i].player) == front + {outcomes[n].player};
    }
  }

  ghost predicate CoSignedBy<H>(c: CoSigned<H>, genuine: set<Signature<H>>) {
    && ValidReceipt(c.receipt)
    && (forall i :: 0 <= i < |c.signatures| ==> VerifiesFor(c.signatures[i], c.receipt, genuine))
    && SignersDistinct(c.signatures) && |c.signatures| == |c.receipt.outcomes|
  }

  lemma {:induction false} NotDistinct<H>(signatures: seq<Signature<H>>, n: nat)
    requires n <= |signatures| && !SignersDistinct(signatures[..n])
    ensures !SignersDistinct(signatures)
  {
    assert forall i :: 0 <= i < n ==> signatures[..n][i] == signatures[i];
  }

  /** The check on a co-signed receipt, one signature after the other. */
  method Verify<H(==)>(c: CoSigned<H>, genuine: set<Signature<H>>) returns (ok: bool)
    ensures ok <==> CoSignedBy(c, genuine)
  {
    if !ValidReceipt(c.receipt) { return false; }
    hide SignersDistinct, Signers, VerifiesFor, ValidReceipt;
    var signed: set<PlayerId> := {};
    for i := 0 to |c.signatures|
      invariant signed == Signers(c.signatures[..i]) && SignersDistinct(c.signatures[..i])
      invariant forall k :: 0 <= k < i ==> VerifiesFor(c.signatures[k], c.receipt, genuine)
    {
      if !VerifiesFor(c.signatures[i], c.receipt, genuine) { return false; }
      var player := c.signatures[i].certificate.player;
      OneMoreSigner(c.signatures, i);
      if player in signed {
        NotDistinct(c.signatures, i + 1);
        return false;
      }
      signed := signed + {player};
    }
    assert c.signatures[..|c.signatures|] == c.signatures;
    SignersCount(c.signatures);
    ParticipantsCount(c.receipt.outcomes);
    return |signed| == |Participants(c.receipt)|;
  }

  lemma {:induction false} SubsetOfSameSize(a: set<nat>, b: set<nat>)
    requires a <= b && |a| == |b|
    ensures a == b
  {
    assert |b - a| == 0 by { assert b == a + (b - a); }
  }

  /** A co-signed receipt carries the signature of every participant, once, made with the device the receipt names. */
  lemma {:induction false} EveryParticipantSigned<H>(c: CoSigned<H>, genuine: set<Signature<H>>, k: nat)
    requires CoSignedBy(c, genuine) && k < |c.receipt.outcomes|
    ensures exists i :: && 0 <= i < |c.signatures| && Fits(c.signatures[i], c.receipt)
                        && c.signatures[i].certificate.player == c.receipt.outcomes[k].player
                        && c.signatures[i].certificate.device == c.receipt.outcomes[k].device
                        && c.signatures[i] in genuine
                        && forall j :: 0 <= j < |c.signatures| && j != i ==>
                             c.signatures[j].certificate.player != c.receipt.outcomes[k].player
  {
    SignersCount(c.signatures);
    ParticipantsCount(c.receipt.outcomes);
    assert Signers(c.signatures) <= Participants(c.receipt) by {
      forall i | 0 <= i < |c.signatures| ensures c.signatures[i].certificate.player in Participants(c.receipt) {
        assert VerifiesFor(c.signatures[i], c.receipt, genuine);
      }
    }
    SubsetOfSameSize(Signers(c.signatures), Participants(c.receipt));
    assert c.receipt.outcomes[k].player in Signers(c.signatures);
    var i :| 0 <= i < |c.signatures| && c.signatures[i].certificate.player == c.receipt.outcomes[k].player;
    assert VerifiesFor(c.signatures[i], c.receipt, genuine);
    OneOutcome(c.receipt, k);
  }

  lemma {:induction false} OneOutcome<H>(r: Receipt<H>, k: nat)
    requires PlayersAscend(r.outcomes) && k < |r.outcomes|
    ensures OutcomeFor(r, r.outcomes[k].player) == Some(r.outcomes[k])
  {
    var i := OutcomeIndex(r.outcomes, r.outcomes[k].player);
    assert i.Some? && !(i.value < k) && !(k < i.value);
  }

  // ----- Collecting signatures -----

  datatype Tally<H> = Tally(receipt: Receipt<H>, signatures: map<PlayerId, Signature<H>>, finalized: bool)

  datatype Reply<+T> = Accepted(value: T) | Refused

  /** Every stored signature is for the local receipt and stored under its signer. */
  ghost predicate Collected<H>(t: Tally<H>) {
    forall p :: p in t.signatures ==> t.signatures[p].certificate.player == p && Fits(t.signatures[p], t.receipt)
  }

  /** Signing the local receipt opens the tally; `certified` says the own certificate is valid now. */
  function Open<H(==)>(receipt: Receipt<H>, certificate: Certificate, certified: bool): (t: Reply<Tally<H>>)
    ensures t.Accepted? ==> Collected(t.value) && t.value.receipt == receipt && !t.value.finalized
                            && t.value.signatures == map[certificate.player := Signature(certificate, receipt)]
  {
    var s := Signature(certificate, receipt);
    if certified && Fits(s, receipt) then Accepted(Tally(receipt, map[certificate.player := s], false)) else Refused
  }

  /** Adds a signature; true if it is new. A different receipt or a second signature by one player is refused. */
  function AddSignature<H(==)>(t: Tally<H>, receipt: Receipt<H>, s: Signature<H>,
      genuine: set<Signature<H>>): (Tally<H>, Reply<bool>) {
    if receipt != t.receipt || !VerifiesFor(s, receipt, genuine) then (t, Refused)
    else
      var player := s.certificate.player;
      if player in t.signatures then (t, if t.signatures[player] == s then Accepted(false) else Refused)
      else (t.(signatures := t.signatures[player := s]), Accepted(true))
  }

  /** The stored signatures in the order of their players. */
  function Listed<H>(signatures: map<PlayerId, Signature<H>>, players: seq<PlayerId>): (r: seq<Signature<H>>)
    requires forall p :: p in players ==> p in signatures
    ensures |r| == |players| && forall i :: 0 <= i < |r| ==> r[i] == signatures[players[i]]
  {
    if |players| == 0 then []
    else Listed(signatures, players[..|players| - 1]) + [signatures[players[|players| - 1]]]
  }

  function Bundle<H>(t: Tally<H>): CoSigned<H> {
    CoSigned(t.receipt, Listed(t.signatures, Ascending(t.signatures.Keys)))
  }

  /** Closes the tally once there are as many signatures as participants and all of them check out. */
  ghost function CloseTally<H>(t: Tally<H>, genuine: set<Signature<H>>): (Tally<H>, Reply<Option<CoSigned<H>>>) {
    if t.finalized || |t.signatures| != |t.receipt.outcomes| then (t, Accepted(None))
    else if CoSignedBy(Bundle(t), genuine) then (t.(finalized := true), Accepted(Some(Bundle(t))))
    else (t, Refused)
  }

  lemma {:induction false} AddKeepsCollected<H>(t: Tally<H>, receipt: Receipt<H>, s: Signature<H>,
      genuine: set<Signature<H>>)
    requires Collected(t)
    ensures Collected(AddSignature(t, receipt, s, genuine).0) && AddSignature(t, receipt, s, genuine).0.receipt == t.receipt
  {
  }

  lemma {:induction false} AscendingDistinct(s: set<nat>, i: nat, j: nat)
    requires i < j < |Ascending(s)|
    ensures Ascending(s)[i] != Ascending(s)[j]
  {
    var rest := Ascending(s - {Least(s)});
    if i == 0 { assert rest[j - 1] in s - {Least(s)}; } else { AscendingDistinct(s - {Least(s)}, i - 1, j - 1); }
  }

  /** The bundle of a tally lists the stored signatures by player. */
  lemma {:induction false} BundleAt<H>(t: Tally<H>)
    requires Collected(t)
    ensures var (keys, listed) := (Ascending(t.signatures.Keys), Bundle(t).signatures);
            && |listed| == |keys| == |t.signatures|
            && (forall p :: p in keys <==> p in t.signatures)
            && (forall i :: 0 <= i < |keys| ==>
                  && keys[i] in t.signatures && listed[i] == t.signatures[keys[i]]
                  && listed[i].certificate.player == keys[i] && Fits(listed[i], t.receipt))
  {
    hide Fits, Ascending;
    assert |t.signatures| == |t.signatures.Keys|;
  }

  /** The bundle of a tally lists every stored signature once. */
  lemma {:induction false} BundleLists<H>(t: Tally<H>)
    requires Collected(t)
    ensures SignersDistinct(Bundle(t).signatures) && |Bundle(t).signatures| == |t.signatures|
    ensures forall i :: 0 <= i < |t.signatures| ==>
              var s := Bundle(t).signatures[i];
              s.certificate.player in t.signatures && t.signatures[s.certificate.player] == s && Fits(s, t.receipt)
    ensures forall p :: p in t.signatures ==> t.signatures[p] in Bundle(t).signatures
  {
    hide Fits, Ascending, Bundle, Collected;
    var keys := Ascending(t.signatures.Keys);
    var listed := Bundle(t).signatures;
    BundleAt(t);
    forall i, j | 0 <= i < j < |listed| ensures listed[i].certificate.player != listed[j].certificate.player {
      AscendingDistinct(t.signatures.Keys, i, j);
    }
    forall p | p in t.signatures ensures t.signatures[p] in listed {
      assert p in keys;
      var i :| 0 <= i < |keys| && keys[i] == p;
      assert listed[i] == t.signatures[p];
    }
  }

  lemma {:induction false} GenuineBundleChecksOut<H>(t: Tally<H>, genuine: set<Signature<H>>)
    requires Collected(t) && ValidReceipt(t.receipt) && |t.signatures| == |t.receipt.outcomes|
    requires forall p :: p in t.signatures ==> t.signatures[p] in genuine
    ensures CoSignedBy(Bundle(t), genuine)
  {
    hide Fits, SignersDistinct, ValidReceipt, Collected, Listed, Ascending;
    BundleLists(t);
  }

  lemma {:induction false} BundleIsGenuine<H>(t: Tally<H>, genuine: set<Signature<H>>, p: PlayerId)
    requires Collected(t) && CoSignedBy(Bundle(t), genuine) && p in t.signatures
    ensures t.signatures[p] in genuine
  {
    BundleLists(t);
    hide Fits, SignersDistinct, ValidReceipt, Bundle, Collected;
    var i :| 0 <= i < |Bundle(t).signatures| && Bundle(t).signatures[i] == t.signatures[p];
    assert VerifiesFor(Bundle(t).signatures[i], Bundle(t).receipt, genuine);
  }

  lemma {:induction false} OnlyParticipantsCollected<H>(t: Tally<H>)
    requires Collected(t) && ValidReceipt(t.receipt)
    ensures |t.signatures| == |t.receipt.outcomes| <==> t.signatures.Keys == Participants(t.receipt)
  {
    ParticipantsCount(t.receipt.outcomes);
    assert |t.signatures| == |t.signatures.Keys|;
    forall p | p in t.signatures ensures p in Participants(t.receipt) { assert Fits(t.signatures[p], t.receipt); }
    if |t.signatures| == |t.receipt.outcomes| { SubsetOfSameSize(t.signatures.Keys, Participants(t.receipt)); }
  }

  /** A tally with the genuine signature of every participant, and only such a tally, finalizes. */
  lemma {:induction false} FinalizesWhenComplete<H>(t: Tally<H>, genuine: set<Signature<H>>)
    requires Collected(t) && ValidReceipt(t.receipt) && !t.finalized
    ensures CloseTally(t, genuine).1 == Accepted(Some(Bundle(t)))
            <==> t.signatures.Keys == Participants(t.receipt) && forall p :: p in t.signatures ==> t.signatures[p] in genuine
  {
    OnlyParticipantsCollected(t);
    if |t.signatures| == |t.receipt.outcomes| {
      if forall p :: p in t.signatures ==> t.signatures[p] in genuine { GenuineBundleChecksOut(t, genuine); }
      if CoSignedBy(Bundle(t), genuine) {
        forall p | p in t.signatures ensures t.signatures[p] in genuine { BundleIsGenuine(t, genuine, p); }
      }
    }
    hide CoSignedBy, Bundle, Participants;
  }

  /** The tally as the object that collects the signatures. */
  class ReceiptConsensus<H(==)> {
    const receipt: Receipt<H>
    var signatures: map<PlayerId, Signature<H>>
    var finalized: bool

    ghost function Value(): Tally<H>
      reads this
    {
      Tally(receipt, signatures, finalized)
    }

    constructor (receipt: Receipt<H>, own: Signature<H>)
      requires Fits(own, receipt)
      ensures Open(receipt, own.certificate, true) == Accepted(Value())
    {
      this.receipt := receipt;
      signatures := map[own.certificate.player := own];
      finalized := false;
    }

    static method Start(receipt: Receipt<H>, certificate: Certificate,
        certified: bool) returns (c: ReceiptConsensus?<H>)
      ensures c == null <==> Open(receipt, certificate, certified).Refused?
      ensures c != null ==> fresh(c) && Open(receipt, certificate, certified) == Accepted(c.Value())
    {
      var own := Signature(certificate, receipt);
      if !certified || !Fits(own, receipt) { return null; }
      c := new ReceiptConsensus(receipt, own);
    }

    method Accept(receipt: Receipt<H>, s: Signature<H>, genuine: set<Signature<H>>) returns (r: Reply<bool>)
      requires Collected(Value())
      modifies this`signatures
      ensures (Value(), r) == AddSignature(old(Value()), receipt, s, genuine)
      ensures Collected(Value())
    {
      if receipt != this.receipt { return Refused; }
      if !VerifiesFor(s, receipt, genuine) { return Refused; }
      var player := s.certificate.player;
      if player in signatures {
        if signatures[player] == s { return Accepted(false); }
        return Refused;
      }
      signatures := signatures[player := s];
      r := Accepted(true);
    }

    method TryFinalize(genuine: set<Signature<H>>) returns (r: Reply<Option<CoSigned<H>>>)
      modifies this`finalized
      ensures (Value(), r) == CloseTally(old(Value()), genuine)
    {
      if finalized || |signatures| != |receipt.outcomes| { return Accepted(None); }
      var bundle := CoSigned(receipt, Listed(signatures, Ascending(signatures.Keys)));
      var ok := Verify(bundle, genuine);
      if !ok { return Refused; }
      finalized := true;
      r := Accepted(Some(bundle));
    }
  }
}
