/** The per-campaign statistics the campaign listing derives, on every read,
    from the live contribution ledger. All of it is pure. */
module Stats {
  import opened Common
  import opened Store

  /** One `contributionsByTier` entry. */
  datatype TierCount = TierCount(tierId: string, tierTitle: string, count: nat)

  /** The `stats` object of a campaign in the listing. */
  datatype CampaignStats = CampaignStats(
    raised: real,
    percentageRaised: real,
    backers: nat,
    contributionsByTier: seq<TierCount>)

  /** `contributions.reduce((sum, c) => sum + c.amount, 0)`, folding from
      the left. */
  function Raised(cs: seq<Contribution>): (r: real)
    ensures cs == [] ==> r == 0.0
    ensures (forall k :: k in cs ==> k.amount >= 0.0) ==> r >= 0.0
  {
    if cs == [] then 0.0 else Raised(cs[..|cs| - 1]) + cs[|cs| - 1].amount
  }

  /** The total of a ledger is the total of its parts. */
  lemma {:induction false} RaisedAppend(a: seq<Contribution>, b: seq<Contribution>)
    ensures Raised(a + b) == Raised(a) + Raised(b)
  {
    if b == [] {
      assert a + b == a;
    } else {
      assert (a + b)[..|a + b| - 1] == a + b[..|b| - 1];
      RaisedAppend(a, b[..|b| - 1]);
    }
  }

  /** `new Set(contributions.map(c => c.contributorAddress))`. */
  function Addresses(cs: seq<Contribution>): (r: set<string>)
    ensures |r| <= |cs|
    ensures forall a :: a in r <==> exists k :: k in cs && k.contributorAddress == a
  {
    if cs == [] then {}
    else
      var rest := Addresses(cs[..|cs| - 1]);
      assert forall k :: k in cs <==> k in cs[..|cs| - 1] || k == cs[|cs| - 1];
      rest + {cs[|cs| - 1].contributorAddress}
  }

  /** The number of distinct contributor addresses: at most the number of
      contributions, and zero exactly when there are none. */
  function Backers(cs: seq<Contribution>): (r: nat)
    ensures r <= |cs|
    ensures r == 0 <==> cs == []
  {
    var addrs := Addresses(cs);
    assert cs != [] ==> cs[0].contributorAddress in addrs;
    |addrs|
  }

  /** `contributions.filter(c => c.tierId === tierId).length`. */
  function CountForTier(cs: seq<Contribution>, tierId: string): (n: nat)
    ensures n <= |cs|
    ensures n == 0 <==> forall k :: k in cs ==> k.tierId != Some(tierId)
  {
    if cs == [] then 0
    else (if cs[0].tierId == Some(tierId) then 1 else 0) + CountForTier(cs[1..], tierId)
  }

  /** `tiers.map(tier => ({ tierId, tierTitle, count }))`: one entry per
      tier, in tier order. */
  function ContributionsByTier(ts: seq<Tier>, cs: seq<Contribution>): (r: seq<TierCount>)
    ensures |r| == |ts|
    ensures forall i :: 0 <= i < |ts| ==>
              r[i].tierId == ts[i].id && r[i].tierTitle == ts[i].title
              && r[i].count <= |cs|
              && (r[i].count == 0 <==> forall k :: k in cs ==> k.tierId != Some(ts[i].id))
  {
    seq(|ts|, i requires 0 <= i < |ts| => TierCount(ts[i].id, ts[i].title, CountForTier(cs, ts[i].id)))
  }

  /** The sum of the `count` fields. */
  function SumCounts(r: seq<TierCount>): nat
  {
    if r == [] then 0 else r[0].count + SumCounts(r[1..])
  }

  /** How many of the tiers `ts` a single contribution's tier id names. */
  function Hits(ts: seq<Tier>, tierId: Option<string>): nat
  {
    if ts == [] then 0 else (if tierId == Some(ts[0].id) then 1 else 0) + Hits(ts[1..], tierId)
  }

  /** With distinct tier ids, a contribution lands in at most one bucket. */
  lemma {:induction false} HitsAtMostOne(ts: seq<Tier>, tierId: Option<string>)
    requires UniqueTierIds(ts)
    ensures Hits(ts, tierId) <= 1
    ensures Hits(ts, tierId) == 0 <==> forall t :: t in ts ==> tierId != Some(t.id)
  {
    if ts != [] {
      HitsAtMostOne(ts[1..], tierId);
      if tierId == Some(ts[0].id) {
        forall t | t in ts[1..] ensures tierId != Some(t.id) {
          var j :| 0 <= j < |ts[1..]| && ts[1..][j] == t;
          assert ts[j + 1] == t;
        }
      }
      assert forall t :: t in ts <==> t == ts[0] || t in ts[1..];
    }
  }

  /** Peeling the first contribution off every bucket at once. */
  lemma {:induction false} SumCountsStep(ts: seq<Tier>, cs: seq<Contribution>)
    requires cs != []
    ensures SumCounts(ContributionsByTier(ts, cs))
            == Hits(ts, cs[0].tierId) + SumCounts(ContributionsByTier(ts, cs[1..]))
  {
    if ts != [] {
      assert ContributionsByTier(ts, cs)[1..] == ContributionsByTier(ts[1..], cs);
      assert ContributionsByTier(ts, cs[1..])[1..] == ContributionsByTier(ts[1..], cs[1..]);
      SumCountsStep(ts[1..], cs);
    }
  }

  /** With distinct tier ids the bucket counts add up to the number of
      contributions that name one of the tiers, so to at most the
      contribution total; untiered contributions land in no bucket. */
  lemma {:induction false} TierCountsBounded(ts: seq<Tier>, cs: seq<Contribution>)
    requires UniqueTierIds(ts)
    ensures SumCounts(ContributionsByTier(ts, cs)) <= |cs|
    ensures (forall k :: k in cs ==> k.tierId == None) ==> SumCounts(ContributionsByTier(ts, cs)) == 0
  {
    if cs == [] {
      ZeroCounts(ts, cs);
    } else {
      SumCountsStep(ts, cs);
      HitsAtMostOne(ts, cs[0].tierId);
      TierCountsBounded(ts, cs[1..]);
      if forall k :: k in cs ==> k.tierId == None {
        assert forall k :: k in cs[1..] ==> k in cs;
      }
    }
  }

  /** No contribution at all gives empty buckets. */
  lemma {:induction false} ZeroCounts(ts: seq<Tier>, cs: seq<Contribution>)
    requires cs == []
    ensures SumCounts(ContributionsByTier(ts, cs)) == 0
  {
    if ts != [] {
      assert ContributionsByTier(ts, cs)[1..] == ContributionsByTier(ts[1..], cs);
      ZeroCounts(ts[1..], cs);
    }
  }

  /** `goal > 0 ? (raised / goal) * 100 : 0`: the goal is reached exactly
      at 100, and a non-positive goal reports 0 instead of dividing. */
  function PercentageRaised(raised: real, goal: real): (p: real)
    ensures goal <= 0.0 ==> p == 0.0
    ensures goal > 0.0 ==> p * goal == raised * 100.0
    ensures goal > 0.0 ==> (p >= 100.0 <==> raised >= goal)
    ensures goal > 0.0 ==> (p == 100.0 <==> raised == goal)
    ensures goal > 0.0 && raised >= 0.0 ==> p >= 0.0
  {
    if goal > 0.0 then (raised / goal) * 100.0 else 0.0
  }

  const TaglineLimit: nat := 100
  const Ellipsis: string := "..."

  /** The short tagline derived from a description: the description itself
      up to 100 characters, otherwise its first 100 characters and "...". */
  function Tagline(description: string): (r: string)
    ensures |r| <= TaglineLimit + |Ellipsis|
    ensures |description| <= TaglineLimit ==> r == description
    ensures |description| > TaglineLimit ==>
              |r| == TaglineLimit + 3
              && r[..TaglineLimit] == description[..TaglineLimit]
              && r[TaglineLimit..] == Ellipsis
  {
    if |description| > TaglineLimit then description[..TaglineLimit] + Ellipsis else description
  }

  /** The statistics of one campaign from its tiers and its contributions. */
  function StatsOf(c: Campaign, ts: seq<Tier>, cs: seq<Contribution>): (s: CampaignStats)
    ensures s.backers <= |cs| && (s.backers == 0 <==> cs == [])
    ensures cs == [] ==> s.raised == 0.0 && s.percentageRaised == 0.0
    ensures |s.contributionsByTier| == |ts|
    ensures c.goal > 0.0 ==> (s.percentageRaised >= 100.0 <==> s.raised >= c.goal)
  {
    var raised := Raised(cs);
    CampaignStats(raised, PercentageRaised(raised, c.goal), Backers(cs), ContributionsByTier(ts, cs))
  }
}
