/** Properties that span the handlers: what the dashboard reads after a
    reconciliation, which tier a payment is booked against, and how the
    form's checks relate to the server's schema. */
module Scenarios {
  import opened Common
  import opened Store
  import opened Stats
  import opened Callback
  import StartCampaign
  import Campaigns

  /** After a payment is booked, the campaign's raised total grows by
      exactly the booked amount, and the payer counts as a backer. */
  lemma RaisedGrowsByPayment(db: Tables, req: Request, oracle: Oracle, parseFloat: Parser,
                             newId: string, fault: StoreFault)
    requires Reconciliation(db, req, oracle, parseFloat, newId, fault).write.Some?
    ensures var k := Reconciliation(db, req, oracle, parseFloat, newId, fault).write.value;
            var after := ContributionsOf(Record(db, Some(k)).contributions, k.campaignId);
            && Raised(after) == Raised(ContributionsOf(db.contributions, k.campaignId)) + k.amount
            && k.contributorAddress in Addresses(after)
            && Backers(after) >= 1
  {
    var k := Reconciliation(db, req, oracle, parseFloat, newId, fault).write.value;
    var before := ContributionsOf(db.contributions, k.campaignId);
    ContributionsOfAppend(db.contributions, [k], k.campaignId);
    assert ContributionsOf([k], k.campaignId) == [k];
    RaisedAppend(before, [k]);
    assert Raised([k]) == k.amount;
    assert k in before + [k];
  }

  /** A store with one campaign priced at 10 ("tier-a") and 25 ("tier-b"). */
  function TwoTierStore(): Tables
  {
    Tables(
      [Campaign("camp", "Title", "Description", 100.0, "🚀", "creator", None, 0)],
      [Tier("tier-a", "camp", "A", "a", 10.0, "🥉", "thanks"),
       Tier("tier-b", "camp", "B", "b", 25.0, "🥈", "more thanks")],
      [])
  }

  /** A payment whose memo names "tier-a" but which pays 25 is booked
      against "tier-b": the tier follows the price, not the memo. */
  lemma PriceBeatsMemo(parseFloat: Parser, oracle: Oracle)
    requires parseFloat("25") == Some(25.0)
    requires oracle("0xabc") == Found(Payment("payer", "creator", "25", "tier-a"))
    ensures var e := Reconciliation(TwoTierStore(), Body(Some("0xabc")), oracle, parseFloat, "row-1", NoFault);
            && e.outcome.Reconciled?
            && e.write == Some(Contribution("row-1", "camp", Some("tier-b"), 25.0, "payer", Some("0xabc"), None))
  {
    var db := TwoTierStore();
    var p := Payment("payer", "creator", "25", "tier-a");
    assert TiersOf(db.tiers, "camp") == db.tiers;
    assert HasTierId(db.tiers, "tier-a");
    assert Qualifies(db, db.campaigns[0], p, "0xabc");
    assert SelectTier(db.tiers, Some(25.0)) == Some(db.tiers[1]);
  }

  /** Paying more than a tier's price does not qualify for it: 15 on a
      campaign whose only matching memo tier costs 10 is refused. */
  lemma OverpaymentIsRefused(parseFloat: Parser, oracle: Oracle)
    requires parseFloat("15") == Some(15.0)
    requires oracle("0xdef") == Found(Payment("payer", "creator", "15", "tier-a"))
    ensures Reconciliation(TwoTierStore(), Body(Some("0xdef")), oracle, parseFloat, "row-2", NoFault)
            == Effect(Rejected(404, TierNotFound), None)
  {
    var db := TwoTierStore();
    var p := Payment("payer", "creator", "15", "tier-a");
    assert TiersOf(db.tiers, "camp") == db.tiers;
    assert HasTierId(db.tiers, "tier-a");
    assert Qualifies(db, db.campaigns[0], p, "0xdef");
    assert SelectTier(db.tiers, Some(15.0)) == None;
  }

  /** The tier as the form sends it. */
  function Submitted(t: StartCampaign.TierData): Campaigns.TierInput
  {
    Campaigns.TierInput(t.title, t.description, t.amount, t.emoji, t.perk)
  }

  /** Every tier the server accepts passes the form's check, and a tier the
      form lets through is refused by the server exactly when its emoji is
      empty or its amount is not a number. */
  lemma FormTierCheckIsLooser(t: StartCampaign.TierData, parseFloat: Parser)
    ensures Campaigns.TierAccepted(Submitted(t), parseFloat) ==> StartCampaign.TierError(t, parseFloat).None?
    ensures StartCampaign.TierError(t, parseFloat).None? ==>
              (!Campaigns.TierAccepted(Submitted(t), parseFloat) <==> t.emoji == "" || parseFloat(t.amount).None?)
  {
  }

  /** With `parseFloat("0") == 0` and `parseFloat("")` NaN, the form's
      step gate asks exactly what the server's schema asks of title,
      description and goal. */
  lemma InfoGateMatchesSchema(title: string, description: string, goal: string, parseFloat: Parser)
    requires parseFloat("0") == Some(0.0)
    requires parseFloat("") == None
    ensures StartCampaign.InfoComplete(title, description, goal, parseFloat)
            <==> title != "" && description != "" && PositiveNumber(goal, parseFloat)
  {
  }
}
