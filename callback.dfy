/** Payment reconciliation: given a transaction hash, look the payment up
    at the payment service, find the campaign it pays, pick the tier whose
    price equals the paid amount, and append exactly one contribution. */
module Callback {
  import opened Common
  import opened Store

  /** The payment facts the payment service reports for a hash. */
  datatype Payment = Payment(
    senderAddress: string,
    receiverAddress: string,
    invoiceAmount: string,
    memo: string)

  /** What `getPayment(txHash)` does: resolve to a payment, resolve to
      nothing, or throw (network failure). */
  datatype Lookup = Found(payment: Payment) | NoPayment | Unreachable

  /** The payment service, as a function of the hash. */
  type Oracle = string -> Lookup

  /** The request body: not JSON at all, or a JSON object whose `txHash`
      member may be missing. */
  datatype Request = Unparsable | Body(txHash: Option<string>)

  /** Which store call, if any, throws during this request. */
  datatype StoreFault = NoFault | LookupFails | InsertFails | RereadFails

  /** The response: 200 with the campaign re-read with its tiers, or an
      error status with its message. */
  datatype Outcome =
    | Reconciled(campaign: Campaign, tiers: seq<Tier>)
    | Rejected(status: nat, error: string)

  /** The response together with the row the request appended, if any. */
  datatype Effect = Effect(outcome: Outcome, write: Option<Contribution>)

  const NoTxHash := "No txHash provided"
  const PaymentNotFound := "Payment not found"
  const CampaignNotFound := "Campaign not found or not valid"
  const TierNotFound := "Tier not found or not valid"
  const InternalError := "Internal server error"

  /** The `findFirst` filter: the campaign's creator is the payment's
      receiver, it owns a tier whose id is the memo, and none of its
      contributions carries this hash yet. */
  predicate Qualifies(db: Tables, c: Campaign, p: Payment, txHash: string)
  {
    && c.creatorAddress == p.receiverAddress
    && HasTierId(TiersOf(db.tiers, c.id), p.memo)
    && !HasHash(ContributionsOf(db.contributions, c.id), txHash)
  }

  /** The first campaign of `cs`, in table order, that passes the filter. */
  function FirstQualifying(db: Tables, cs: seq<Campaign>, p: Payment, txHash: string): (r: Option<Campaign>)
    ensures r.Some? ==> r.value in cs && Qualifies(db, r.value, p, txHash)
    ensures r.None? <==> forall c :: c in cs ==> !Qualifies(db, c, p, txHash)
  {
    if cs == [] then None
    else if Qualifies(db, cs[0], p, txHash) then Some(cs[0])
    else FirstQualifying(db, cs[1..], p, txHash)
  }

  /** The campaign picked is the first one that passes, like `findFirst`
      over the table in its order. */
  lemma {:induction false} FirstQualifyingIsFirst(db: Tables, cs: seq<Campaign>, p: Payment, txHash: string)
    requires FirstQualifying(db, cs, p, txHash).Some?
    ensures exists i :: 0 <= i < |cs| && cs[i] == FirstQualifying(db, cs, p, txHash).value
                        && forall j :: 0 <= j < i ==> !Qualifies(db, cs[j], p, txHash)
  {
    if !Qualifies(db, cs[0], p, txHash) {
      var rest := cs[1..];
      FirstQualifyingIsFirst(db, rest, p, txHash);
      var i :| 0 <= i < |rest| && rest[i] == FirstQualifying(db, rest, p, txHash).value
               && forall j :: 0 <= j < i ==> !Qualifies(db, rest[j], p, txHash);
      forall j | 0 <= j < i + 1 ensures !Qualifies(db, cs[j], p, txHash) {
        if j > 0 {
          assert cs[j] == rest[j - 1];
        }
      }
      assert cs[i + 1] == rest[i];
    }
  }

  /** `tiers.find(t => t.amount === paid)`: a tier priced exactly at the
      paid amount. A paid amount that is NaN (`None`) equals no price. */
  function SelectTier(ts: seq<Tier>, paid: Option<real>): (r: Option<Tier>)
    ensures r.Some? ==> r.value in ts && paid == Some(r.value.amount)
    ensures r.None? <==> forall t :: t in ts ==> paid != Some(t.amount)
  {
    if ts == [] then None
    else if paid == Some(ts[0].amount) then Some(ts[0])
    else SelectTier(ts[1..], paid)
  }

  /** The tier picked is the first, in the campaign's tier order, priced at
      the paid amount. */
  lemma {:induction false} SelectTierIsFirst(ts: seq<Tier>, paid: Option<real>)
    requires SelectTier(ts, paid).Some?
    ensures exists i :: 0 <= i < |ts| && ts[i] == SelectTier(ts, paid).value
                        && forall j :: 0 <= j < i ==> paid != Some(ts[j].amount)
  {
    if paid != Some(ts[0].amount) {
      var rest := ts[1..];
      SelectTierIsFirst(rest, paid);
      var i :| 0 <= i < |rest| && rest[i] == SelectTier(rest, paid).value
               && forall j :: 0 <= j < i ==> paid != Some(rest[j].amount);
      forall j | 0 <= j < i + 1 ensures paid != Some(ts[j].amount) {
        if j > 0 {
          assert ts[j] == rest[j - 1];
        }
      }
      assert ts[i + 1] == rest[i];
    }
  }

  /** The whole handler as a function of the store, the request, the
      payment service, `parseFloat`, the id the store would give the new
      row, and which store call (if any) throws. */
  function Reconciliation(db: Tables, req: Request, oracle: Oracle, parseFloat: Parser,
                          newId: string, fault: StoreFault): (e: Effect)
    // a body that is not JSON makes `req.json()` throw
    ensures req.Unparsable? ==> e == Effect(Rejected(500, InternalError), None)
    // a missing or empty hash is refused before the payment service is asked
    ensures req.Body? && (req.txHash == None || req.txHash == Some("")) ==>
              e == Effect(Rejected(400, NoTxHash), None)
    // the payment service throws, or knows no such payment
    ensures req.Body? && req.txHash.Some? && req.txHash != Some("") && oracle(req.txHash.value).Unreachable? ==>
              e == Effect(Rejected(500, InternalError), None)
    ensures req.Body? && req.txHash.Some? && req.txHash != Some("") && oracle(req.txHash.value).NoPayment? ==>
              e == Effect(Rejected(404, PaymentNotFound), None)
    // once the payment is known, the rest is the booking of that payment
    ensures req.Body? && req.txHash.Some? && req.txHash != Some("") && oracle(req.txHash.value).Found? ==>
              e == Booking(db, req.txHash.value, oracle(req.txHash.value).payment, parseFloat, newId, fault)
    // every error except a failing re-read leaves the ledger untouched
    ensures e.outcome.Rejected? && fault != RereadFails ==> e.write == None
    ensures e.outcome.Reconciled? ==> e.write.Some?
    // a throwing store call is never answered 200
    ensures fault != NoFault ==> e.outcome.Rejected?
    // the only 500 that comes with a write is the one raised by the re-read
    ensures e.write.Some? ==> e.outcome.Reconciled? || (fault == RereadFails && e.outcome == Rejected(500, InternalError))
  {
    match req
    case Unparsable => Effect(Rejected(500, InternalError), None)
    case Body(hash) =>
      if hash == None || hash == Some("") then Effect(Rejected(400, NoTxHash), None)
      else
        var txHash := hash.value;
        match oracle(txHash)
        case Unreachable => Effect(Rejected(500, InternalError), None)
        case NoPayment => Effect(Rejected(404, PaymentNotFound), None)
        case Found(p) => Booking(db, txHash, p, parseFloat, newId, fault)
  }

  /** The handler once the payment `p` for `txHash` is known: the campaign
      lookup, the tier choice, the insert and the re-read. */
  function Booking(db: Tables, txHash: string, p: Payment, parseFloat: Parser,
                   newId: string, fault: StoreFault): (e: Effect)
    // a throwing campaign lookup is a 500 with nothing written
    ensures fault == LookupFails ==> e == Effect(Rejected(500, InternalError), None)
    // no campaign passes the filter
    ensures fault != LookupFails && (forall c :: c in db.campaigns ==> !Qualifies(db, c, p, txHash)) ==>
              e == Effect(Rejected(404, CampaignNotFound), None)
    // the matched campaign has no tier at the paid price (NaN matches none)
    ensures fault != LookupFails && FirstQualifying(db, db.campaigns, p, txHash).Some? &&
            (forall t :: t in TiersOf(db.tiers, FirstQualifying(db, db.campaigns, p, txHash).value.id) ==>
                           parseFloat(p.invoiceAmount) != Some(t.amount)) ==>
              e == Effect(Rejected(404, TierNotFound), None)
    // a throwing insert writes nothing
    ensures fault == InsertFails ==> e.write == None && e.outcome.Rejected?
    // once a campaign and a tier at the paid price are found, a throwing
    // insert is a 500 with nothing written, and a throwing re-read is a
    // 500 after the row was written
    ensures FirstQualifying(db, db.campaigns, p, txHash).Some? &&
            SelectTier(TiersOf(db.tiers, FirstQualifying(db, db.campaigns, p, txHash).value.id),
                       parseFloat(p.invoiceAmount)).Some? ==>
              && (fault == InsertFails ==> e == Effect(Rejected(500, InternalError), None))
              && (fault == RereadFails ==> e.outcome == Rejected(500, InternalError) && e.write.Some?)
    // a throwing re-read is never answered 200
    ensures fault == RereadFails ==> e.outcome.Rejected?
    // a 500 comes only from a store call that throws
    ensures e.outcome == Rejected(500, InternalError) ==> fault != NoFault
    // with no fault, a campaign that passes the filter and a tier at the
    // paid price give 200 with that campaign re-read with its tiers
    ensures fault == NoFault && FirstQualifying(db, db.campaigns, p, txHash).Some? &&
            SelectTier(TiersOf(db.tiers, FirstQualifying(db, db.campaigns, p, txHash).value.id),
                       parseFloat(p.invoiceAmount)).Some? ==>
              e.outcome == Reconciled(FirstQualifying(db, db.campaigns, p, txHash).value,
                                      TiersOf(db.tiers, FirstQualifying(db, db.campaigns, p, txHash).value.id))
  {
    if fault == LookupFails then Effect(Rejected(500, InternalError), None)
    else
      match FirstQualifying(db, db.campaigns, p, txHash)
      case None => Effect(Rejected(404, CampaignNotFound), None)
      case Some(c) =>
        var ts := TiersOf(db.tiers, c.id);
        var paid := parseFloat(p.invoiceAmount);
        match SelectTier(ts, paid)
        case None => Effect(Rejected(404, TierNotFound), None)
        case Some(t) =>
          if fault == InsertFails then Effect(Rejected(500, InternalError), None)
          else
            var k := Contribution(newId, c.id, Some(t.id), paid.value, p.senderAddress, Some(txHash), None);
            if fault == RereadFails then Effect(Rejected(500, InternalError), Some(k))
            else Effect(Reconciled(c, ts), Some(k))
  }

  /** The row a booking writes records the payment against the first
      campaign that passes the filter and the first of its tiers priced at
      exactly the amount paid. */
  lemma BookingRow(db: Tables, txHash: string, p: Payment, parseFloat: Parser,
                   newId: string, fault: StoreFault)
    requires Booking(db, txHash, p, parseFloat, newId, fault).write.Some?
    ensures && var k := Booking(db, txHash, p, parseFloat, newId, fault).write.value;
            && k.id == newId
            && k.transactionHash == Some(txHash)
            && k.contributorAddress == p.senderAddress
            && parseFloat(p.invoiceAmount) == Some(k.amount)
            && k.message == None
            && (exists c :: c in db.campaigns && c.id == k.campaignId && Qualifies(db, c, p, txHash))
            && k.tierId.Some?
            && (exists t :: t in TiersOf(db.tiers, k.campaignId) && t.id == k.tierId.value && t.amount == k.amount)
            && FirstQualifying(db, db.campaigns, p, txHash).Some?
            && k.campaignId == FirstQualifying(db, db.campaigns, p, txHash).value.id
            && SelectTier(TiersOf(db.tiers, k.campaignId), Some(k.amount)).Some?
            && k.tierId == Some(SelectTier(TiersOf(db.tiers, k.campaignId), Some(k.amount)).value.id)
  {
    var found := FirstQualifying(db, db.campaigns, p, txHash);
    assert found.Some?;
    var c := found.value;
    var ts := TiersOf(db.tiers, c.id);
    var paid := parseFloat(p.invoiceAmount);
    var chosen := SelectTier(ts, paid);
    assert chosen.Some?;
    var t := chosen.value;
    var k := Contribution(newId, c.id, Some(t.id), paid.value, p.senderAddress, Some(txHash), None);
    assert Booking(db, txHash, p, parseFloat, newId, fault).write == Some(k);
    assert c in db.campaigns && c.id == k.campaignId && Qualifies(db, c, p, txHash);
    assert t in ts && t.id == k.tierId.value && t.amount == k.amount;
  }

  /** The row a reconciliation writes records this payment: the fresh id,
      the hash, the payer, the parsed invoice amount and no message, booked
      against the first campaign that passes the filter and the first tier
      of that campaign, in tier order, priced at exactly the amount paid. */
  lemma ReconciliationRow(db: Tables, req: Request, oracle: Oracle, parseFloat: Parser,
                          newId: string, fault: StoreFault)
    requires Reconciliation(db, req, oracle, parseFloat, newId, fault).write.Some?
    ensures && req.Body? && req.txHash.Some?
            && var txHash := req.txHash.value;
            && oracle(txHash).Found?
            && var p := oracle(txHash).payment;
            && var k := Reconciliation(db, req, oracle, parseFloat, newId, fault).write.value;
            && k.id == newId
            && k.transactionHash == Some(txHash)
            && k.contributorAddress == p.senderAddress
            && parseFloat(p.invoiceAmount) == Some(k.amount)
            && k.message == None
            && (exists c :: c in db.campaigns && c.id == k.campaignId && Qualifies(db, c, p, txHash))
            && k.tierId.Some?
            && (exists t :: t in TiersOf(db.tiers, k.campaignId) && t.id == k.tierId.value && t.amount == k.amount)
            && FirstQualifying(db, db.campaigns, p, txHash).Some?
            && k.campaignId == FirstQualifying(db, db.campaigns, p, txHash).value.id
            && SelectTier(TiersOf(db.tiers, k.campaignId), Some(k.amount)).Some?
            && k.tierId == Some(SelectTier(TiersOf(db.tiers, k.campaignId), Some(k.amount)).value.id)
  {
    var txHash := req.txHash.value;
    var p := oracle(txHash).payment;
    assert Reconciliation(db, req, oracle, parseFloat, newId, fault) == Booking(db, txHash, p, parseFloat, newId, fault);
    BookingRow(db, txHash, p, parseFloat, newId, fault);
  }

  /** A reconciliation on a consistent store with a fresh row id leaves the
      store consistent: the row's campaign exists and its tier belongs to
      that campaign. */
  lemma ReconciliationKeepsConsistent(db: Tables, req: Request, oracle: Oracle, parseFloat: Parser,
                                      newId: string, fault: StoreFault)
    requires Consistent(db)
    requires forall k :: k in db.contributions ==> k.id != newId
    ensures Consistent(Record(db, Reconciliation(db, req, oracle, parseFloat, newId, fault).write))
  {
    var e := Reconciliation(db, req, oracle, parseFloat, newId, fault);
    if e.write.Some? {
      ReconciliationRow(db, req, oracle, parseFloat, newId, fault);
      var k := e.write.value;
      var t :| t in TiersOf(db.tiers, k.campaignId) && t.id == k.tierId.value && t.amount == k.amount;
      assert OwnsTier(db.tiers, k.campaignId, k.tierId.value);
      RecordKeepsConsistent(db, k);
    }
  }

  /** In a consistent store every campaign that passes the filter is the
      owner of the memo tier, so at most one campaign can ever match a
      given payment. */
  lemma {:induction false} OnlyMemoOwnerQualifies(db: Tables, c: Campaign, p: Payment, txHash: string, t: Tier)
    requires Consistent(db)
    requires Qualifies(db, c, p, txHash)
    requires t in db.tiers && t.id == p.memo
    ensures c.id == t.campaignId
  {
    var u :| u in TiersOf(db.tiers, c.id) && u.id == p.memo;
    var i :| 0 <= i < |db.tiers| && db.tiers[i] == u;
    var j :| 0 <= j < |db.tiers| && db.tiers[j] == t;
    assert i == j;
  }

  /** On a consistent store the campaign the lookup finds is any campaign
      that passes the filter: there is only one. */
  lemma QualifyingIsFound(db: Tables, c: Campaign, p: Payment, txHash: string)
    requires Consistent(db)
    requires c in db.campaigns && Qualifies(db, c, p, txHash)
    ensures FirstQualifying(db, db.campaigns, p, txHash) == Some(c)
  {
    var found := FirstQualifying(db, db.campaigns, p, txHash).value;
    var u :| u in TiersOf(db.tiers, c.id) && u.id == p.memo;
    OnlyMemoOwnerQualifies(db, c, p, txHash, u);
    OnlyMemoOwnerQualifies(db, found, p, txHash, u);
    CampaignByIdFindsRow(db.campaigns, c);
    CampaignByIdFindsRow(db.campaigns, found);
  }

  /** A payment is booked when it should be: on a consistent store, with
      no store call throwing, a payment to a campaign that passes the
      filter and has a tier priced at the paid amount is answered 200 with
      that campaign and its tiers, and writes one row. */
  lemma BooksWhenPayable(db: Tables, txHash: string, oracle: Oracle, parseFloat: Parser,
                         newId: string, c: Campaign, t: Tier)
    requires Consistent(db)
    requires txHash != "" && oracle(txHash).Found?
    requires c in db.campaigns && Qualifies(db, c, oracle(txHash).payment, txHash)
    requires t in TiersOf(db.tiers, c.id) && parseFloat(oracle(txHash).payment.invoiceAmount) == Some(t.amount)
    ensures var e := Reconciliation(db, Body(Some(txHash)), oracle, parseFloat, newId, NoFault);
            e.outcome == Reconciled(c, TiersOf(db.tiers, c.id)) && e.write.Some?
  {
    var p := oracle(txHash).payment;
    QualifyingIsFound(db, c, p, txHash);
    assert SelectTier(TiersOf(db.tiers, c.id), parseFloat(p.invoiceAmount)).Some?;
  }

  /** A payment whose amount is the price of no tier of the campaign it
      pays is refused with 404 "Tier not found or not valid" and writes
      nothing, whatever the memo names. */
  lemma UnpricedIsRefused(db: Tables, txHash: string, oracle: Oracle, parseFloat: Parser,
                          newId: string, fault: StoreFault, c: Campaign)
    requires Consistent(db)
    requires txHash != "" && oracle(txHash).Found?
    requires c in db.campaigns && Qualifies(db, c, oracle(txHash).payment, txHash)
    requires forall t :: t in TiersOf(db.tiers, c.id) ==> parseFloat(oracle(txHash).payment.invoiceAmount) != Some(t.amount)
    requires fault != LookupFails
    ensures Reconciliation(db, Body(Some(txHash)), oracle, parseFloat, newId, fault)
            == Effect(Rejected(404, TierNotFound), None)
  {
    QualifyingIsFound(db, c, oracle(txHash).payment, txHash);
  }

  /** Once a row with this hash is recorded for the campaign that passed
      the filter, no campaign passes it any more for the same payment. */
  lemma UsedHashBlocksFilter(db: Tables, k: Contribution, p: Payment, txHash: string)
    requires Consistent(db)
    requires k.transactionHash == Some(txHash)
    requires exists c :: c in db.campaigns && c.id == k.campaignId && Qualifies(db, c, p, txHash)
    ensures forall c' :: c' in db.campaigns ==> !Qualifies(Record(db, Some(k)), c', p, txHash)
  {
    var db' := Record(db, Some(k));
    var c :| c in db.campaigns && c.id == k.campaignId && Qualifies(db, c, p, txHash);
    var u :| u in TiersOf(db.tiers, c.id) && u.id == p.memo;
    ContributionsOfAppend(db.contributions, [k], c.id);
    assert k in ContributionsOf(db'.contributions, c.id);
    forall c' | c' in db.campaigns ensures !Qualifies(db', c', p, txHash) {
      if Qualifies(db', c', p, txHash) {
        OnlyMemoOwnerQualifies(db', c', p, txHash, u);
        assert false;
      }
    }
  }

  /** Replaying a hash that was just recorded is refused with 404
      "Campaign not found or not valid" and writes nothing, whatever row id
      the store would hand out and as long as the store is reachable. */
  lemma ReplayIsRejected(db: Tables, txHash: string, oracle: Oracle, parseFloat: Parser,
                         id1: string, fault1: StoreFault, id2: string, fault2: StoreFault)
    requires Consistent(db)
    requires Reconciliation(db, Body(Some(txHash)), oracle, parseFloat, id1, fault1).write.Some?
    ensures var db' := Record(db, Reconciliation(db, Body(Some(txHash)), oracle, parseFloat, id1, fault1).write);
            var e := Reconciliation(db', Body(Some(txHash)), oracle, parseFloat, id2, fault2);
            && e.write == None
            && (fault2 != LookupFails ==> e.outcome == Rejected(404, CampaignNotFound))
  {
    ReconciliationRow(db, Body(Some(txHash)), oracle, parseFloat, id1, fault1);
    var k := Reconciliation(db, Body(Some(txHash)), oracle, parseFloat, id1, fault1).write.value;
    var db' := Record(db, Some(k));
    var p := oracle(txHash).payment;
    UsedHashBlocksFilter(db, k, p, txHash);
    assert FirstQualifying(db', db'.campaigns, p, txHash) == None;
    assert Reconciliation(db', Body(Some(txHash)), oracle, parseFloat, id2, fault2)
           == Booking(db', txHash, p, parseFloat, id2, fault2);
  }

  /** The handler as written, up to the payment lookup: early returns for
      an unreadable body, a missing hash and a missing payment. */
  method Reconcile(ledger: Ledger, req: Request, oracle: Oracle, parseFloat: Parser,
                   newId: string, fault: StoreFault) returns (out: Outcome)
    requires ledger.Valid()
    requires forall k :: k in ledger.contributions ==> k.id != newId
    modifies ledger
    ensures ledger.Valid()
    ensures var e := Reconciliation(old(ledger.Snapshot()), req, oracle, parseFloat, newId, fault);
            out == e.outcome && ledger.Snapshot() == Record(old(ledger.Snapshot()), e.write)
  {
    ReconciliationKeepsConsistent(ledger.Snapshot(), req, oracle, parseFloat, newId, fault);
    if req.Unparsable? {
      return Rejected(500, InternalError);
    }
    var hash := req.txHash;
    if hash == None || hash == Some("") {
      return Rejected(400, NoTxHash);
    }
    var txHash := hash.value;
    var lookup := oracle(txHash);
    if lookup.Unreachable? {
      return Rejected(500, InternalError);
    }
    if lookup.NoPayment? {
      return Rejected(404, PaymentNotFound);
    }
    out := Book(ledger, txHash, oracle, parseFloat, newId, fault);
  }

  /** The handler once the payment is known: find the campaign and the
      tier, insert the contribution, re-read the campaign with its tiers. */
  method Book(ledger: Ledger, txHash: string, oracle: Oracle, parseFloat: Parser,
              newId: string, fault: StoreFault) returns (out: Outcome)
    requires UniqueCampaignIds(ledger.campaigns)
    requires oracle(txHash).Found?
    modifies ledger
    ensures var e := Booking(old(ledger.Snapshot()), txHash, oracle(txHash).payment, parseFloat, newId, fault);
            out == e.outcome && ledger.Snapshot() == Record(old(ledger.Snapshot()), e.write)
  {
    var payment := oracle(txHash).payment;
    if fault == LookupFails {
      return Rejected(500, InternalError);
    }
    var campaign := FirstQualifying(ledger.Snapshot(), ledger.campaigns, payment, txHash);
    if campaign.None? {
      return Rejected(404, CampaignNotFound);
    }
    var tiers := TiersOf(ledger.tiers, campaign.value.id);
    var paid := parseFloat(payment.invoiceAmount);
    var tier := SelectTier(tiers, paid);
    if tier.None? {
      return Rejected(404, TierNotFound);
    }
    if fault == InsertFails {
      return Rejected(500, InternalError);
    }
    var row := Contribution(newId, campaign.value.id, Some(tier.value.id), paid.value,
                            payment.senderAddress, Some(txHash), None);
    ledger.contributions := ledger.contributions + [row];
    if fault == RereadFails {
      return Rejected(500, InternalError);
    }
    CampaignByIdFindsRow(ledger.campaigns, campaign.value);
    var updated := CampaignById(ledger.campaigns, campaign.value.id);
    out := Reconciled(updated.value, TiersOf(ledger.tiers, updated.value.id));
  }
}
