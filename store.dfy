/** The relational store the three route handlers share: campaigns, their
    tiers, and the append-only contribution ledger. The ORM client is
    modelled as three in-memory tables kept in insertion order. */
module Store {
  import opened Common

  /** A fundraising campaign. `createdAt` is the ordering key the listing
      sorts by; `endDate` is kept as the submitted text. */
  datatype Campaign = Campaign(
    id: string,
    title: string,
    description: string,
    goal: real,
    emoji: string,
    creatorAddress: string,
    endDate: Option<string>,
    createdAt: int)

  /** A priced reward level owned by one campaign. */
  datatype Tier = Tier(
    id: string,
    campaignId: string,
    title: string,
    description: string,
    amount: real,
    emoji: string,
    perk: string)

  /** A recorded payment, attributed to a campaign and optionally a tier. */
  datatype Contribution = Contribution(
    id: string,
    campaignId: string,
    tierId: Option<string>,
    amount: real,
    contributorAddress: string,
    transactionHash: Option<string>,
    message: Option<string>)

  /** The whole store as a value. */
  datatype Tables = Tables(
    campaigns: seq<Campaign>,
    tiers: seq<Tier>,
    contributions: seq<Contribution>)

  // ---------------------------------------------------------------------
  // Queries the handlers issue

  /** `findUnique({ where: { id } })` on the campaign table. */
  function CampaignById(cs: seq<Campaign>, id: string): (r: Option<Campaign>)
    ensures r.Some? ==> r.value in cs && r.value.id == id
    ensures r.None? <==> forall c :: c in cs ==> c.id != id
  {
    if cs == [] then None
    else if cs[0].id == id then Some(cs[0])
    else CampaignById(cs[1..], id)
  }

  /** With unique ids, looking a campaign up by its id finds that very row. */
  lemma CampaignByIdFindsRow(cs: seq<Campaign>, c: Campaign)
    requires UniqueCampaignIds(cs)
    requires c in cs
    ensures CampaignById(cs, c.id) == Some(c)
  {
    var u := CampaignById(cs, c.id).value;
    var i :| 0 <= i < |cs| && cs[i] == c;
    var j :| 0 <= j < |cs| && cs[j] == u;
    assert i == j;
  }

  /** The tiers a campaign owns (`include: { tiers: true }`), in table order. */
  function TiersOf(ts: seq<Tier>, campaignId: string): (r: seq<Tier>)
    ensures |r| <= |ts|
    ensures forall t :: t in r <==> t in ts && t.campaignId == campaignId
  {
    if ts == [] then []
    else (if ts[0].campaignId == campaignId then [ts[0]] else [])
         + TiersOf(ts[1..], campaignId)
  }

  /** The contributions recorded for a campaign, in table order. */
  function ContributionsOf(cs: seq<Contribution>, campaignId: string): (r: seq<Contribution>)
    ensures |r| <= |cs|
    ensures forall k :: k in r <==> k in cs && k.campaignId == campaignId
  {
    if cs == [] then []
    else (if cs[0].campaignId == campaignId then [cs[0]] else [])
         + ContributionsOf(cs[1..], campaignId)
  }

  /** `tiers.some(t => t.id === tierId)`. */
  predicate HasTierId(ts: seq<Tier>, tierId: string)
  {
    exists t :: t in ts && t.id == tierId
  }

  /** Some contribution in `cs` carries transaction hash `txHash`. */
  predicate HasHash(cs: seq<Contribution>, txHash: string)
  {
    exists k :: k in cs && k.transactionHash == Some(txHash)
  }

  /** Some campaign in `cs` has id `id`. */
  predicate HasCampaignId(cs: seq<Campaign>, id: string)
  {
    exists c :: c in cs && c.id == id
  }

  /** Tier `tierId` exists and belongs to campaign `campaignId`. */
  predicate OwnsTier(ts: seq<Tier>, campaignId: string, tierId: string)
  {
    exists t :: t in ts && t.id == tierId && t.campaignId == campaignId
  }

  // ---------------------------------------------------------------------
  // Integrity of the store

  predicate UniqueCampaignIds(cs: seq<Campaign>)
  {
    forall i, j :: 0 <= i < j < |cs| ==> cs[i].id != cs[j].id
  }

  predicate UniqueTierIds(ts: seq<Tier>)
  {
    forall i, j :: 0 <= i < j < |ts| ==> ts[i].id != ts[j].id
  }

  predicate UniqueContributionIds(cs: seq<Contribution>)
  {
    forall i, j :: 0 <= i < j < |cs| ==> cs[i].id != cs[j].id
  }

  /** Primary keys are unique, every tier belongs to an existing campaign,
      and every contribution names an existing campaign and, when it has a
      tier, a tier of that same campaign. */
  predicate Consistent(db: Tables)
  {
    && UniqueCampaignIds(db.campaigns)
    && UniqueTierIds(db.tiers)
    && UniqueContributionIds(db.contributions)
    && (forall t :: t in db.tiers ==> HasCampaignId(db.campaigns, t.campaignId))
    && (forall k :: k in db.contributions ==>
          && HasCampaignId(db.campaigns, k.campaignId)
          && (k.tierId.Some? ==> OwnsTier(db.tiers, k.campaignId, k.tierId.value)))
  }

  /** The store after `prisma.contribution.create`, when a write happened. */
  function Record(db: Tables, write: Option<Contribution>): Tables
  {
    if write.Some? then db.(contributions := db.contributions + [write.value]) else db
  }

  /** Appending a contribution with a fresh id whose campaign exists and
      whose tier, if any, belongs to that campaign keeps the store
      consistent. */
  lemma RecordKeepsConsistent(db: Tables, k: Contribution)
    requires Consistent(db)
    requires forall old_k :: old_k in db.contributions ==> old_k.id != k.id
    requires HasCampaignId(db.campaigns, k.campaignId)
    requires k.tierId.Some? ==> OwnsTier(db.tiers, k.campaignId, k.tierId.value)
    ensures Consistent(Record(db, Some(k)))
  {
    var cs := db.contributions + [k];
    forall i, j | 0 <= i < j < |cs| ensures cs[i].id != cs[j].id {
      if j == |cs| - 1 {
        assert cs[i] in db.contributions;
      } else {
        assert cs[i] == db.contributions[i] && cs[j] == db.contributions[j];
      }
    }
  }

  /** A campaign owns a tier exactly when the tier shows up among the tiers
      loaded with it. */
  lemma OwnsTierLoaded(ts: seq<Tier>, campaignId: string, tierId: string)
    ensures OwnsTier(ts, campaignId, tierId) <==> HasTierId(TiersOf(ts, campaignId), tierId)
  {
    if OwnsTier(ts, campaignId, tierId) {
      var t :| t in ts && t.id == tierId && t.campaignId == campaignId;
      assert t in TiersOf(ts, campaignId);
    }
  }

  /** Loading the tiers of a campaign distributes over appended rows. */
  lemma {:induction false} TiersOfAppend(a: seq<Tier>, b: seq<Tier>, campaignId: string)
    ensures TiersOf(a + b, campaignId) == TiersOf(a, campaignId) + TiersOf(b, campaignId)
  {
    if a == [] {
      assert a + b == b;
    } else {
      assert (a + b)[1..] == a[1..] + b;
      TiersOfAppend(a[1..], b, campaignId);
    }
  }

  /** Rows that all belong to one campaign are loaded whole, in order. */
  lemma {:induction false} TiersOfOwn(ts: seq<Tier>, campaignId: string)
    requires forall t :: t in ts ==> t.campaignId == campaignId
    ensures TiersOf(ts, campaignId) == ts
  {
    if ts != [] {
      TiersOfOwn(ts[1..], campaignId);
      assert ts == [ts[0]] + ts[1..];
    }
  }

  /** A campaign none of whose rows exist loads no tiers. */
  lemma {:induction false} TiersOfNone(ts: seq<Tier>, campaignId: string)
    requires forall t :: t in ts ==> t.campaignId != campaignId
    ensures TiersOf(ts, campaignId) == []
  {
    if ts != [] {
      TiersOfNone(ts[1..], campaignId);
    }
  }

  /** Loading the contributions of a campaign distributes over appended rows. */
  lemma {:induction false} ContributionsOfAppend(a: seq<Contribution>, b: seq<Contribution>, campaignId: string)
    ensures ContributionsOf(a + b, campaignId) == ContributionsOf(a, campaignId) + ContributionsOf(b, campaignId)
  {
    if a == [] {
      assert a + b == b;
    } else {
      assert (a + b)[1..] == a[1..] + b;
      ContributionsOfAppend(a[1..], b, campaignId);
    }
  }

  /** The tables behind the ORM client, updated in place by the handlers. */
  class Ledger {
    var campaigns: seq<Campaign>
    var tiers: seq<Tier>
    var contributions: seq<Contribution>

    /** An empty store. */
    constructor ()
      ensures Snapshot() == Tables([], [], []) && Valid()
    {
      campaigns, tiers, contributions := [], [], [];
    }

    /** The current contents of the three tables. */
    function Snapshot(): Tables
      reads this
    {
      Tables(campaigns, tiers, contributions)
    }

    ghost predicate Valid()
      reads this
    {
      Consistent(Snapshot())
    }
  }
}
