/** Direct contribution creation: validate the payload, check that the
    campaign exists and that a given tier belongs to it, append one row. */
module Contributions {
  import opened Common
  import opened Store

  /** The submitted contribution. */
  datatype ContributionInput = ContributionInput(
    amount: real,
    contributorAddress: string,
    campaignId: string,
    tierId: Option<string>,
    message: Option<string>,
    transactionHash: Option<string>)

  /** The request body: not JSON, or a payload. */
  datatype ContributionRequest = Unreadable | Payload(input: ContributionInput)

  /** 201 with the created row, or an error status with its message. */
  datatype Reply = Created(contribution: Contribution) | Refused(status: nat, error: string)

  /** Which store call, if any, throws. */
  datatype StoreFault = NoFault | LookupFails | InsertFails

  /** The reply together with the row appended, if any. */
  datatype Effect = Effect(reply: Reply, write: Option<Contribution>)

  const ValidationFailed := "Validation failed"
  const CampaignMissing := "Campaign not found"
  const ForeignTier := "Tier does not belong to this campaign"
  const CreateFailed := "Failed to create contribution"
  const MaxMessageLength: nat := 500

  predicate IsHexDigit(ch: char)
  {
    ('0' <= ch <= '9') || ('a' <= ch <= 'f') || ('A' <= ch <= 'F')
  }

  /** The schema's uuid shape: 8-4-4-4-12 hexadecimal digits, either case. */
  predicate IsUuid(s: string)
  {
    && |s| == 36
    && forall i :: 0 <= i < |s| ==>
         if i == 8 || i == 13 || i == 18 || i == 23 then s[i] == '-' else IsHexDigit(s[i])
  }

  /** Every rule of the contribution schema holds. An accepted id is never
      empty, so the handler's `if (tierId)` is the same as "a tier id was
      given". */
  predicate InputAccepted(p: ContributionInput): (r: bool)
    ensures r ==> p.amount > 0.0 && p.contributorAddress != "" && |p.campaignId| == 36
    ensures r && p.tierId.Some? ==> p.tierId.value != ""
    ensures r && p.message.Some? ==> |p.message.value| <= MaxMessageLength
  {
    && p.amount > 0.0
    && p.contributorAddress != ""
    && IsUuid(p.campaignId)
    && (p.tierId.Some? ==> IsUuid(p.tierId.value))
    && (p.message.Some? ==> |p.message.value| <= MaxMessageLength)
  }

  /** The handler as a function of the store, the request, the id the store
      would give the row, and which store call (if any) throws. */
  function ContributionEffect(db: Tables, req: ContributionRequest, newId: string, fault: StoreFault): (e: Effect)
    ensures e.write.Some? <==> e.reply.Created?
    ensures e.reply.Created? ==> e.write == Some(e.reply.contribution)
    ensures req.Payload? && !InputAccepted(req.input) ==> e == Effect(Refused(400, ValidationFailed), None)
    ensures req.Payload? && InputAccepted(req.input) && fault != LookupFails
            && !HasCampaignId(db.campaigns, req.input.campaignId) ==>
              e == Effect(Refused(404, CampaignMissing), None)
    ensures req.Payload? && InputAccepted(req.input) && fault != LookupFails
            && HasCampaignId(db.campaigns, req.input.campaignId)
            && req.input.tierId.Some? && !OwnsTier(db.tiers, req.input.campaignId, req.input.tierId.value) ==>
              e == Effect(Refused(400, ForeignTier), None)
    // a body that is not JSON, or a store call that throws, is a 500
    ensures req.Unreadable? ==> e == Effect(Refused(500, CreateFailed), None)
    ensures req.Payload? && InputAccepted(req.input) && fault == LookupFails ==>
              e == Effect(Refused(500, CreateFailed), None)
    ensures fault == InsertFails ==> e.write == None
    ensures req.Payload? && InputAccepted(req.input) && fault == InsertFails
            && HasCampaignId(db.campaigns, req.input.campaignId)
            && (req.input.tierId.Some? ==> OwnsTier(db.tiers, req.input.campaignId, req.input.tierId.value)) ==>
              e == Effect(Refused(500, CreateFailed), None)
    // a row is created exactly when the payload is valid, its campaign
    // exists, a given tier belongs to that campaign and no call throws
    ensures e.reply.Created? <==>
              && req.Payload? && InputAccepted(req.input) && fault == NoFault
              && HasCampaignId(db.campaigns, req.input.campaignId)
              && (req.input.tierId.Some? ==> OwnsTier(db.tiers, req.input.campaignId, req.input.tierId.value))
    ensures e.reply.Created? ==>
              && req.Payload? && InputAccepted(req.input)
              && var p := req.input;
              && var k := e.reply.contribution;
              && k == Contribution(newId, p.campaignId, p.tierId, p.amount, p.contributorAddress, p.transactionHash, None)
              && HasCampaignId(db.campaigns, k.campaignId)
              && (k.tierId.Some? ==> OwnsTier(db.tiers, k.campaignId, k.tierId.value))
  {
    match req
    case Unreadable => Effect(Refused(500, CreateFailed), None)
    case Payload(p) =>
      if !InputAccepted(p) then Effect(Refused(400, ValidationFailed), None)
      else if fault == LookupFails then Effect(Refused(500, CreateFailed), None)
      else
        match CampaignById(db.campaigns, p.campaignId)
        case None => Effect(Refused(404, CampaignMissing), None)
        case Some(c) =>
          var ts := TiersOf(db.tiers, c.id);
          OwnsTierLoaded(db.tiers, c.id, if p.tierId.Some? then p.tierId.value else "");
          if p.tierId.Some? && p.tierId.value != "" && !HasTierId(ts, p.tierId.value) then
            Effect(Refused(400, ForeignTier), None)
          else if fault == InsertFails then Effect(Refused(500, CreateFailed), None)
          else
            assert HasCampaignId(db.campaigns, p.campaignId);
            assert p.tierId.Some? ==> p.tierId.value != "" && OwnsTier(db.tiers, p.campaignId, p.tierId.value);
            assert fault == NoFault;
            var k := Contribution(newId, p.campaignId, p.tierId, p.amount, p.contributorAddress, p.transactionHash, None);
            Effect(Created(k), Some(k))
  }

  /** The handler keeps the store consistent: only rows whose campaign
      exists and whose tier, if any, belongs to it are appended. */
  lemma ContributionKeepsConsistent(db: Tables, req: ContributionRequest, newId: string, fault: StoreFault)
    requires Consistent(db)
    requires forall k :: k in db.contributions ==> k.id != newId
    ensures Consistent(Record(db, ContributionEffect(db, req, newId, fault).write))
  {
    var e := ContributionEffect(db, req, newId, fault);
    if e.write.Some? {
      RecordKeepsConsistent(db, e.write.value);
    }
  }

  /** Without a tier id no tier check is made: a valid untiered payload for
      an existing campaign is recorded as untiered whatever tiers exist. */
  lemma UntieredIsAccepted(db: Tables, p: ContributionInput, newId: string)
    requires InputAccepted(p) && p.tierId.None?
    requires HasCampaignId(db.campaigns, p.campaignId)
    ensures ContributionEffect(db, Payload(p), newId, NoFault).reply.Created?
    ensures ContributionEffect(db, Payload(p), newId, NoFault).write.value.tierId.None?
  {
    var c :| c in db.campaigns && c.id == p.campaignId;
    assert CampaignById(db.campaigns, p.campaignId).Some?;
  }

  /** The handler as written: validation, campaign lookup, tier-ownership
      check, one insert. */
  method CreateContribution(ledger: Ledger, req: ContributionRequest, newId: string, fault: StoreFault)
    returns (reply: Reply)
    requires ledger.Valid()
    requires forall k :: k in ledger.contributions ==> k.id != newId
    modifies ledger
    ensures ledger.Valid()
    ensures var e := ContributionEffect(old(ledger.Snapshot()), req, newId, fault);
            reply == e.reply && ledger.Snapshot() == Record(old(ledger.Snapshot()), e.write)
  {
    ContributionKeepsConsistent(ledger.Snapshot(), req, newId, fault);
    if req.Unreadable? {
      return Refused(500, CreateFailed);
    }
    var p := req.input;
    if !InputAccepted(p) {
      return Refused(400, ValidationFailed);
    }
    if fault == LookupFails {
      return Refused(500, CreateFailed);
    }
    var campaign := CampaignById(ledger.campaigns, p.campaignId);
    if campaign.None? {
      return Refused(404, CampaignMissing);
    }
    if p.tierId.Some? && p.tierId.value != "" {
      var tierExists := HasTierId(TiersOf(ledger.tiers, campaign.value.id), p.tierId.value);
      if !tierExists {
        return Refused(400, ForeignTier);
      }
    }
    if fault == InsertFails {
      return Refused(500, CreateFailed);
    }
    var row := Contribution(newId, p.campaignId, p.tierId, p.amount, p.contributorAddress, p.transactionHash, None);
    ledger.contributions := ledger.contributions + [row];
    reply := Created(row);
  }
}
