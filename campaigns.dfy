/** The campaign collection endpoint: payload validation, the paged listing
    with live statistics, and creation of a campaign with its tiers in one
    transaction. */
module Campaigns {
  import opened Common
  import opened Store
  import opened Stats

  // ---------------------------------------------------------------------
  // Payload validation

  /** A submitted tier, every field as the text the client sent. */
  datatype TierInput = TierInput(
    title: string,
    description: string,
    amount: string,
    emoji: string,
    perk: string)

  /** A submitted campaign. `endDate` and `emoji` may be absent. */
  datatype CampaignInput = CampaignInput(
    title: string,
    description: string,
    goal: string,
    endDate: Option<string>,
    creatorAddress: string,
    emoji: Option<string>,
    tiers: seq<TierInput>)

  /** One step of the path to an offending field. */
  datatype PathKey = Key(name: string) | Index(i: nat)

  /** One validation issue: where, and the schema's message. */
  datatype Issue = Issue(path: seq<PathKey>, message: string)

  const DefaultCampaignEmoji := "🚀"

  /** Every rule of the tier schema holds. */
  predicate TierAccepted(t: TierInput, parseFloat: Parser)
  {
    && t.title != ""
    && t.description != ""
    && PositiveNumber(t.amount, parseFloat)
    && t.emoji != ""
    && t.perk != ""
  }

  /** Every rule of the campaign schema holds; an empty tier list is fine
      and an absent emoji takes the default. */
  predicate CampaignAccepted(c: CampaignInput, parseFloat: Parser)
  {
    && c.title != ""
    && c.description != ""
    && PositiveNumber(c.goal, parseFloat)
    && c.creatorAddress != ""
    && (c.emoji.Some? ==> c.emoji.value != "")
    && forall t :: t in c.tiers ==> TierAccepted(t, parseFloat)
  }

  /** One rule: no issue when it holds, otherwise one issue at `path`. */
  function Check(ok: bool, path: seq<PathKey>, message: string): (r: seq<Issue>)
    ensures r == [] <==> ok
    ensures forall e :: e in r ==> e.path == path
  {
    if ok then [] else [Issue(path, message)]
  }

  /** Where zod reports a problem with `field` of tier `index`. */
  function TierPath(index: nat, field: string): seq<PathKey>
  {
    [Key("tiers"), Index(index), Key(field)]
  }

  /** The issues the tier schema reports for tier `index`, in field order. */
  function TierIssues(t: TierInput, index: nat, parseFloat: Parser): (r: seq<Issue>)
    ensures r == [] <==> TierAccepted(t, parseFloat)
    ensures forall e :: e in r ==> |e.path| == 3 && e.path[..2] == [Key("tiers"), Index(index)]
  {
    Check(t.title != "", TierPath(index, "title"), "Title is required")
    + Check(t.description != "", TierPath(index, "description"), "Description is required")
    + Check(PositiveNumber(t.amount, parseFloat), TierPath(index, "amount"), "Amount must be a positive number")
    + Check(t.emoji != "", TierPath(index, "emoji"), "Emoji is required")
    + Check(t.perk != "", TierPath(index, "perk"), "Perk is required")
  }

  /** The issues of the tiers `ts`, the first of which sits at `from`. */
  function TiersIssues(ts: seq<TierInput>, from: nat, parseFloat: Parser): (r: seq<Issue>)
    ensures r == [] <==> forall t :: t in ts ==> TierAccepted(t, parseFloat)
  {
    if ts == [] then []
    else
      assert forall t :: t in ts <==> t == ts[0] || t in ts[1..];
      TierIssues(ts[0], from, parseFloat) + TiersIssues(ts[1..], from + 1, parseFloat)
  }

  /** `CampaignSchema.safeParse`: every issue, in schema order. The payload
      is accepted exactly when there are none. */
  function CampaignIssues(c: CampaignInput, parseFloat: Parser): (r: seq<Issue>)
    ensures r == [] <==> CampaignAccepted(c, parseFloat)
  {
    Check(c.title != "", [Key("title")], "Title is required")
    + Check(c.description != "", [Key("description")], "Description is required")
    + Check(PositiveNumber(c.goal, parseFloat), [Key("goal")], "Goal must be a positive number")
    + Check(c.creatorAddress != "", [Key("creatorAddress")], "Creator address is required")
    + Check(c.emoji.None? || c.emoji.value != "", [Key("emoji")], "Emoji is required")
    + TiersIssues(c.tiers, 0, parseFloat)
  }

  /** An absent emoji defaults to the rocket. */
  function EmojiOf(c: CampaignInput): (e: string)
    ensures c.emoji.None? ==> e == DefaultCampaignEmoji
    ensures c.emoji.Some? ==> e == c.emoji.value
  {
    if c.emoji.Some? then c.emoji.value else DefaultCampaignEmoji
  }

  /** The campaign row created from an accepted payload. */
  function NewCampaign(c: CampaignInput, id: string, now: int, parseFloat: Parser): (r: Campaign)
    requires CampaignAccepted(c, parseFloat)
    ensures r.id == id && r.createdAt == now && r.goal > 0.0
    ensures Some(r.goal) == parseFloat(c.goal)
    ensures r.emoji != "" && r.title == c.title && r.description == c.description
    ensures r.creatorAddress == c.creatorAddress
    ensures r.endDate.Some? <==> c.endDate.Some? && c.endDate.value != ""
    ensures r.endDate.Some? ==> r.endDate == c.endDate
    // the schema's emoji default reaches the row
    ensures r.emoji == EmojiOf(c)
  {
    Campaign(id, c.title, c.description, parseFloat(c.goal).value, EmojiOf(c), c.creatorAddress,
             if c.endDate.Some? && c.endDate.value != "" then c.endDate else None, now)
  }

  /** The tier row created from an accepted submitted tier. */
  function NewTier(t: TierInput, id: string, campaignId: string, parseFloat: Parser): (r: Tier)
    requires TierAccepted(t, parseFloat)
    ensures r.id == id && r.campaignId == campaignId && r.amount > 0.0
    ensures Some(r.amount) == parseFloat(t.amount)
    ensures r.title == t.title && r.description == t.description && r.emoji == t.emoji && r.perk == t.perk
  {
    Tier(id, campaignId, t.title, t.description, parseFloat(t.amount).value, t.emoji, t.perk)
  }

  // ---------------------------------------------------------------------
  // Creation

  /** The request body: not JSON, or a payload. */
  datatype CreateRequest = Unreadable | Payload(input: CampaignInput)

  /** 201 with the new campaign, 400 "Validation failed" with the issues,
      or 500 "Failed to create campaign". */
  datatype CreateReply = Created(campaign: Campaign) | Invalid(issues: seq<Issue>) | CreateFailed

  /** The campaign id and tier ids are fresh and pairwise distinct. */
  predicate FreshIds(db: Tables, campaignId: string, tierIds: seq<string>)
  {
    && (forall c :: c in db.campaigns ==> c.id != campaignId)
    && (forall t, i :: t in db.tiers && 0 <= i < |tierIds| ==> t.id != tierIds[i])
    && Distinct(tierIds)
  }

  /** One insert inside the transaction may throw: write 0 is the
      campaign, write `i + 1` is the tier at index `i`. */
  predicate Throws(failAt: Option<nat>, write: nat)
  {
    failAt == Some(write)
  }

  /** Some insert of a transaction creating a campaign with `n` tiers throws. */
  predicate ThrowsWithin(failAt: Option<nat>, n: nat)
  {
    failAt.Some? && failAt.value <= n
  }

  /** The tier rows for the submitted tiers, in submission order. */
  function NewTiers(ts: seq<TierInput>, ids: seq<string>, campaignId: string, parseFloat: Parser): (r: seq<Tier>)
    requires |ids| == |ts|
    requires forall t :: t in ts ==> TierAccepted(t, parseFloat)
    ensures |r| == |ts|
    ensures forall i :: 0 <= i < |ts| ==>
              && r[i].id == ids[i] && r[i].campaignId == campaignId
              && Some(r[i].amount) == parseFloat(ts[i].amount) && r[i].amount > 0.0
  {
    seq(|ts|, i requires 0 <= i < |ts| => NewTier(ts[i], ids[i], campaignId, parseFloat))
  }

  /** The tier inserts of the transaction, one per submitted tier; the
      staged rows, or `None` once one insert throws. */
  method StageTiers(ts: seq<TierInput>, ids: seq<string>, campaignId: string, parseFloat: Parser,
                    failAt: Option<nat>) returns (staged: Option<seq<Tier>>)
    requires |ids| == |ts|
    requires forall t :: t in ts ==> TierAccepted(t, parseFloat)
    requires !Throws(failAt, 0)
    ensures staged.None? <==> ThrowsWithin(failAt, |ts|)
    ensures staged.Some? ==> staged.value == NewTiers(ts, ids, campaignId, parseFloat)
  {
    var rows: seq<Tier> := [];
    var i := 0;
    while i < |ts|
      invariant 0 <= i <= |ts|
      invariant |rows| == i
      invariant forall j :: 0 <= j < i ==> rows[j] == NewTier(ts[j], ids[j], campaignId, parseFloat)
      invariant !ThrowsWithin(failAt, i)
    {
      if Throws(failAt, i + 1) {
        return None;
      }
      rows := rows + [NewTier(ts[i], ids[i], campaignId, parseFloat)];
      i := i + 1;
    }
    return Some(rows);
  }

  /** Creating a campaign with fresh ids on a consistent store keeps it
      consistent. */
  lemma CreationKeepsConsistent(db: Tables, c: Campaign, staged: seq<Tier>)
    requires Consistent(db)
    requires forall old_c :: old_c in db.campaigns ==> old_c.id != c.id
    requires UniqueTierIds(staged)
    requires forall t, u :: t in db.tiers && u in staged ==> t.id != u.id
    requires forall u :: u in staged ==> u.campaignId == c.id
    ensures Consistent(Tables(db.campaigns + [c], db.tiers + staged, db.contributions))
  {
    var db' := Tables(db.campaigns + [c], db.tiers + staged, db.contributions);
    forall i, j | 0 <= i < j < |db'.campaigns| ensures db'.campaigns[i].id != db'.campaigns[j].id {
      if j == |db.campaigns| {
        assert db'.campaigns[i] in db.campaigns;
      } else {
        assert db'.campaigns[i] == db.campaigns[i] && db'.campaigns[j] == db.campaigns[j];
      }
    }
    forall i, j | 0 <= i < j < |db'.tiers| ensures db'.tiers[i].id != db'.tiers[j].id {
      if j >= |db.tiers| && i < |db.tiers| {
        assert db'.tiers[i] in db.tiers && db'.tiers[j] == staged[j - |db.tiers|];
      } else if i >= |db.tiers| {
        assert db'.tiers[i] == staged[i - |db.tiers|] && db'.tiers[j] == staged[j - |db.tiers|];
      } else {
        assert db'.tiers[i] == db.tiers[i] && db'.tiers[j] == db.tiers[j];
      }
    }
    forall t | t in db'.tiers ensures HasCampaignId(db'.campaigns, t.campaignId) {
      if t in staged {
        assert c in db'.campaigns;
      } else {
        var w :| w in db.campaigns && w.id == t.campaignId;
        assert w in db'.campaigns;
      }
    }
    forall k | k in db'.contributions
      ensures HasCampaignId(db'.campaigns, k.campaignId)
      ensures k.tierId.Some? ==> OwnsTier(db'.tiers, k.campaignId, k.tierId.value)
    {
      var w :| w in db.campaigns && w.id == k.campaignId;
      assert w in db'.campaigns;
      if k.tierId.Some? {
        var t :| t in db.tiers && t.id == k.tierId.value && t.campaignId == k.campaignId;
        assert t in db'.tiers;
      }
    }
  }

  /** The tier rows built from fresh, distinct ids have distinct ids, none
      in the tier table, and all point at the new campaign. */
  lemma NewTiersFresh(db: Tables, ts: seq<TierInput>, parseFloat: Parser, campaignId: string, tierIds: seq<string>)
    requires |tierIds| == |ts|
    requires forall t :: t in ts ==> TierAccepted(t, parseFloat)
    requires FreshIds(db, campaignId, tierIds)
    ensures var rows := NewTiers(ts, tierIds, campaignId, parseFloat);
            && UniqueTierIds(rows)
            && (forall t, u :: t in db.tiers && u in rows ==> t.id != u.id)
            && (forall u :: u in rows ==> u.campaignId == campaignId)
  {
    var rows := NewTiers(ts, tierIds, campaignId, parseFloat);
    forall a, b | 0 <= a < b < |rows| ensures rows[a].id != rows[b].id {
      assert rows[a].id == tierIds[a] && rows[b].id == tierIds[b];
    }
    forall t, u | t in db.tiers && u in rows ensures t.id != u.id {
      var j :| 0 <= j < |rows| && rows[j] == u;
      assert u.id == tierIds[j];
    }
  }

  /** What a creation request leaves behind: the reply and the tables. */
  datatype Creation = Creation(reply: CreateReply, db: Tables)

  /** The `POST` handler as a function of the store, the request, the ids
      the store would give the new rows, the creation time and which insert
      (if any) throws. The transaction is all or nothing. */
  function CreationEffect(db: Tables, req: CreateRequest, parseFloat: Parser,
                          campaignId: string, tierIds: seq<string>, now: int,
                          failAt: Option<nat>): (e: Creation)
    requires req.Payload? ==> |tierIds| == |req.input.tiers|
    // validation failures are reported with their issues
    ensures e.reply.Invalid? <==> req.Payload? && !CampaignAccepted(req.input, parseFloat)
    ensures e.reply.Invalid? ==> e.reply.issues != []
    // a campaign is created exactly when the payload is valid and no insert throws
    ensures e.reply.Created? <==> req.Payload? && CampaignAccepted(req.input, parseFloat)
                                  && !ThrowsWithin(failAt, |req.input.tiers|)
    // all or nothing: a failed request leaves every table as it was
    ensures !e.reply.Created? ==> e.db == db
    // a created campaign is appended together with one row per submitted tier
    ensures e.reply.Created? ==>
              && e.reply.campaign.id == campaignId
              && e.reply.campaign == NewCampaign(req.input, campaignId, now, parseFloat)
              && e.db.campaigns == db.campaigns + [e.reply.campaign]
              && e.db.tiers == db.tiers + NewTiers(req.input.tiers, tierIds, campaignId, parseFloat)
              && e.db.contributions == db.contributions
  {
    match req
    case Unreadable => Creation(CreateFailed, db)
    case Payload(input) =>
      if !CampaignAccepted(input, parseFloat) then Creation(Invalid(CampaignIssues(input, parseFloat)), db)
      else if ThrowsWithin(failAt, |input.tiers|) then Creation(CreateFailed, db)
      else
        var c := NewCampaign(input, campaignId, now, parseFloat);
        Creation(Created(c), Tables(db.campaigns + [c], db.tiers + NewTiers(input.tiers, tierIds, campaignId, parseFloat), db.contributions))
  }

  /** A creation on a consistent store, with fresh ids, leaves the store
      consistent. */
  lemma CreationEffectKeepsConsistent(db: Tables, req: CreateRequest, parseFloat: Parser,
                                      campaignId: string, tierIds: seq<string>, now: int,
                                      failAt: Option<nat>)
    requires Consistent(db)
    requires req.Payload? ==> |tierIds| == |req.input.tiers|
    requires FreshIds(db, campaignId, tierIds)
    ensures Consistent(CreationEffect(db, req, parseFloat, campaignId, tierIds, now, failAt).db)
  {
    var e := CreationEffect(db, req, parseFloat, campaignId, tierIds, now, failAt);
    if e.reply.Created? {
      var input := req.input;
      NewTiersFresh(db, input.tiers, parseFloat, campaignId, tierIds);
      CreationKeepsConsistent(db, NewCampaign(input, campaignId, now, parseFloat),
                              NewTiers(input.tiers, tierIds, campaignId, parseFloat));
    }
  }

  /** After a creation the new campaign's tiers, as any later
      `include: { tiers: true }` loads them, are exactly the submitted
      tiers, in submission order. */
  lemma CreatedTiersLoaded(db: Tables, req: CreateRequest, parseFloat: Parser,
                           campaignId: string, tierIds: seq<string>, now: int,
                           failAt: Option<nat>)
    requires Consistent(db)
    requires req.Payload? ==> |tierIds| == |req.input.tiers|
    requires FreshIds(db, campaignId, tierIds)
    requires CreationEffect(db, req, parseFloat, campaignId, tierIds, now, failAt).reply.Created?
    ensures TiersOf(CreationEffect(db, req, parseFloat, campaignId, tierIds, now, failAt).db.tiers, campaignId)
            == NewTiers(req.input.tiers, tierIds, campaignId, parseFloat)
  {
    var staged := NewTiers(req.input.tiers, tierIds, campaignId, parseFloat);
    TiersOfAppend(db.tiers, staged, campaignId);
    TiersOfNone(db.tiers, campaignId);
    forall t | t in staged ensures t.campaignId == campaignId {
      var i :| 0 <= i < |staged| && staged[i] == t;
    }
    TiersOfOwn(staged, campaignId);
  }

  /** The transaction of the `POST` handler, for a valid payload: the
      campaign insert, then one insert per tier; if any of them throws,
      nothing of it is kept. */
  method RunCreation(ledger: Ledger, input: CampaignInput, parseFloat: Parser,
                     campaignId: string, tierIds: seq<string>, now: int,
                     failAt: Option<nat>) returns (out: CreateReply)
    requires ledger.Valid()
    requires CampaignAccepted(input, parseFloat)
    requires |tierIds| == |input.tiers|
    requires FreshIds(ledger.Snapshot(), campaignId, tierIds)
    modifies ledger
    ensures ledger.Valid()
    ensures var e := CreationEffect(old(ledger.Snapshot()), Payload(input), parseFloat, campaignId, tierIds, now, failAt);
            out == e.reply && ledger.Snapshot() == e.db
  {
    CreationEffectKeepsConsistent(ledger.Snapshot(), Payload(input), parseFloat, campaignId, tierIds, now, failAt);
    if Throws(failAt, 0) {
      return CreateFailed;
    }
    var campaign := NewCampaign(input, campaignId, now, parseFloat);
    var staged := StageTiers(input.tiers, tierIds, campaignId, parseFloat, failAt);
    if staged.None? {
      return CreateFailed;
    }
    ledger.campaigns := ledger.campaigns + [campaign];
    ledger.tiers := ledger.tiers + staged.value;
    out := Created(campaign);
  }

  /** The `POST` handler: an unreadable body is a 500, an invalid payload a
      400 with its issues; a valid one runs the transaction. */
  method CreateCampaign(ledger: Ledger, req: CreateRequest, parseFloat: Parser,
                        campaignId: string, tierIds: seq<string>, now: int,
                        failAt: Option<nat>) returns (out: CreateReply)
    requires ledger.Valid()
    requires req.Payload? ==> |tierIds| == |req.input.tiers|
    requires FreshIds(ledger.Snapshot(), campaignId, tierIds)
    modifies ledger
    ensures ledger.Valid()
    ensures var e := CreationEffect(old(ledger.Snapshot()), req, parseFloat, campaignId, tierIds, now, failAt);
            out == e.reply && ledger.Snapshot() == e.db
  {
    if req.Unreadable? {
      return CreateFailed;
    }
    var issues := CampaignIssues(req.input, parseFloat);
    if issues != [] {
      return Invalid(issues);
    }
    out := RunCreation(ledger, req.input, parseFloat, campaignId, tierIds, now, failAt);
  }

  // ---------------------------------------------------------------------
  // Query-string integers

  /** JavaScript's white space and line terminators, which `parseInt`
      skips at the start. */
  predicate IsSpace(ch: char)
  {
    || ch == '\t' || ch == '\n' || ch == '\U{000B}' || ch == '\U{000C}' || ch == '\r'
    || ch == ' ' || ch == '\U{00A0}' || ch == '\U{1680}' || ('\U{2000}' <= ch <= '\U{200A}')
    || ch == '\U{2028}' || ch == '\U{2029}' || ch == '\U{202F}' || ch == '\U{205F}'
    || ch == '\U{3000}' || ch == '\U{FEFF}'
  }

  function TrimStart(s: string): (r: string)
    ensures |r| <= |s| && r == s[|s| - |r|..]
    ensures r == [] || !IsSpace(r[0])
    // only white space is dropped
    ensures forall i :: 0 <= i < |s| - |r| ==> IsSpace(s[i])
  {
    if s != [] && IsSpace(s[0]) then TrimStart(s[1..]) else s
  }

  /** The value of a digit character in radix `radix` (10 or 16). */
  function DigitValue(ch: char, radix: nat): (r: Option<nat>)
    ensures r.Some? ==> r.value < radix
  {
    var d :=
      if '0' <= ch <= '9' then (ch as int - '0' as int)
      else if 'a' <= ch <= 'z' then (ch as int - 'a' as int) + 10
      else if 'A' <= ch <= 'Z' then (ch as int - 'A' as int) + 10
      else radix;
    if d < radix then Some(d) else None
  }

  /** The length of the longest prefix of `s` made of digits. */
  function DigitRun(s: string, radix: nat): (n: nat)
    ensures n <= |s|
    ensures forall i :: 0 <= i < n ==> DigitValue(s[i], radix).Some?
    ensures n < |s| ==> DigitValue(s[n], radix).None?
  {
    if s == [] || DigitValue(s[0], radix).None? then 0 else 1 + DigitRun(s[1..], radix)
  }

  /** The digits `high` followed by the digit `low`. */
  function Shift(high: nat, radix: nat, low: nat): nat
  {
    high * radix + low
  }

  /** The number written by the digits `ds`, most significant first. */
  function DigitsValue(ds: string, radix: nat): nat
    requires forall i :: 0 <= i < |ds| ==> DigitValue(ds[i], radix).Some?
  {
    if ds == [] then 0
    else Shift(DigitsValue(ds[..|ds| - 1], radix), radix, DigitValue(ds[|ds| - 1], radix).value)
  }

  /** The number written by the longest run of digits at the start of
      `v`, or `None` when `v` does not start with a digit. */
  function LeadingNumber(v: string, radix: nat): (r: Option<nat>)
    ensures r.None? <==> v == [] || DigitValue(v[0], radix).None?
  {
    var n := DigitRun(v, radix);
    if n == 0 then None
    else
      assert forall i :: 0 <= i < n ==> v[..n][i] == v[i];
      Some(DigitsValue(v[..n], radix))
  }

  /** `parseInt(s)` with no radix: skip leading white space, take an
      optional sign, read hexadecimal after "0x"/"0X" and decimal
      otherwise, stop at the first non-digit. `None` is NaN. */
  function ParseInt(s: string): (r: Option<int>)
    // blank text is NaN
    ensures TrimStart(s) == [] ==> r.None?
    // the sign of the number follows a leading minus sign
    ensures r.Some? && r.value < 0 ==> TrimStart(s)[0] == '-'
    ensures r.Some? && (TrimStart(s) == [] || TrimStart(s)[0] != '-') ==> r.value >= 0
  {
    var t := TrimStart(s);
    var negative := t != [] && t[0] == '-';
    var u := if t != [] && (t[0] == '-' || t[0] == '+') then t[1..] else t;
    var hex := |u| >= 2 && u[0] == '0' && (u[1] == 'x' || u[1] == 'X');
    match LeadingNumber(if hex then u[2..] else u, if hex then 16 else 10)
    case None => None
    case Some(magnitude) => Some(if negative then -(magnitude as int) else magnitude as int)
  }

  /** The decimal rendering of a natural number, without leading zeros. */
  function Decimal(n: nat): (r: string)
    ensures |r| >= 1
    ensures forall i :: 0 <= i < |r| ==> '0' <= r[i] <= '9'
    ensures n >= 1 ==> r[0] != '0'
  {
    if n < 10 then [('0' as int + n) as char]
    else Decimal(n / 10) + [('0' as int + n % 10) as char]
  }

  /** The digits of a decimal rendering read back to the number. */
  lemma {:induction false} DecimalDigitsValue(n: nat)
    ensures forall i :: 0 <= i < |Decimal(n)| ==> DigitValue(Decimal(n)[i], 10).Some?
    ensures DigitsValue(Decimal(n), 10) == n
  {
    var r := Decimal(n);
    assert forall i :: 0 <= i < |r| ==> DigitValue(r[i], 10) == Some(r[i] as int - '0' as int);
    if n >= 10 {
      DecimalDigitsValue(n / 10);
      assert r[..|r| - 1] == Decimal(n / 10);
    }
  }

  /** A string made only of digits is one run of digits. */
  lemma {:induction false} DigitRunAll(s: string, radix: nat)
    requires forall i :: 0 <= i < |s| ==> DigitValue(s[i], radix).Some?
    ensures DigitRun(s, radix) == |s|
  {
    if s != [] {
      DigitRunAll(s[1..], radix);
    }
  }

  /** A string that starts with a decimal digit and has no "0x" prefix is
      read in radix 10 with no sign. */
  lemma ParseIntUnsignedDecimal(r: string)
    requires r != [] && '0' <= r[0] <= '9'
    requires |r| >= 2 ==> r[1] != 'x' && r[1] != 'X'
    ensures ParseInt(r) == if LeadingNumber(r, 10).Some? then Some(LeadingNumber(r, 10).value as int) else None
  {
    assert TrimStart(r) == r;
    assert !(r[0] == '-' || r[0] == '+');
    assert !(|r| >= 2 && r[0] == '0' && (r[1] == 'x' || r[1] == 'X'));
  }

  /** `parseInt` reads back what a canonical decimal rendering writes. */
  lemma ParseIntDecimal(n: nat)
    ensures ParseInt(Decimal(n)) == Some(n)
  {
    var r := Decimal(n);
    DecimalDigitsValue(n);
    DigitRunAll(r, 10);
    assert r[..|r|] == r;
    assert LeadingNumber(r, 10) == Some(n);
    ParseIntUnsignedDecimal(r);
  }

  // ---------------------------------------------------------------------
  // Listing

  /** Each contribution as the listing selects it. */
  datatype ContributionFacts = ContributionFacts(amount: real, contributorAddress: string, tierId: Option<string>)

  /** A campaign as listed: its row, tiers, selected contributions, tagline
      and statistics. */
  datatype CampaignWithStats = CampaignWithStats(
    campaign: Campaign,
    tiers: seq<Tier>,
    contributions: seq<ContributionFacts>,
    tagline: string,
    stats: CampaignStats)

  datatype Meta = Meta(total: nat, limit: int, offset: int)

  /** 200 with a page and its metadata, or 500 "Failed to fetch campaigns". */
  datatype ListReply = Listed(campaigns: seq<CampaignWithStats>, meta: Meta) | ListFailed

  const DefaultLimit := 10
  const DefaultOffset := 0

  predicate NewestFirst(s: seq<Campaign>)
  {
    forall i, j :: 0 <= i < j < |s| ==> s[i].createdAt >= s[j].createdAt
  }

  function InsertNewest(c: Campaign, s: seq<Campaign>): (r: seq<Campaign>)
    requires NewestFirst(s)
    ensures NewestFirst(r)
    ensures multiset(r) == multiset(s) + multiset{c}
  {
    if s == [] then [c]
    else if c.createdAt >= s[0].createdAt then [c] + s
    else
      var rest := InsertNewest(c, s[1..]);
      HeadBeforeRest(s, c, rest);
      [s[0]] + rest
  }

  /** The head of a newest-first sequence may stay in front of any
      rearrangement of its tail with an older campaign added. */
  lemma HeadBeforeRest(s: seq<Campaign>, c: Campaign, rest: seq<Campaign>)
    requires s != [] && NewestFirst(s) && c.createdAt < s[0].createdAt
    requires NewestFirst(rest) && multiset(rest) == multiset(s[1..]) + multiset{c}
    ensures NewestFirst([s[0]] + rest)
    ensures multiset([s[0]] + rest) == multiset(s) + multiset{c}
  {
    assert s == [s[0]] + s[1..];
    forall j | 0 <= j < |rest| ensures s[0].createdAt >= rest[j].createdAt {
      assert rest[j] in multiset(rest);
      if rest[j] != c {
        assert rest[j] in multiset(s[1..]);
        var k :| 0 <= k < |s[1..]| && s[1..][k] == rest[j];
        assert s[k + 1] == rest[j];
      }
    }
    var r := [s[0]] + rest;
    forall i, j | 0 <= i < j < |r| ensures r[i].createdAt >= r[j].createdAt {
      if i > 0 {
        assert r[i] == rest[i - 1] && r[j] == rest[j - 1];
      } else {
        assert r[j] == rest[j - 1];
      }
    }
  }

  /** `orderBy: { createdAt: 'desc' }`: the campaigns, newest first. */
  function SortNewestFirst(cs: seq<Campaign>): (r: seq<Campaign>)
    ensures NewestFirst(r)
    ensures multiset(r) == multiset(cs)
  {
    if cs == [] then []
    else
      assert cs == [cs[0]] + cs[1..];
      InsertNewest(cs[0], SortNewestFirst(cs[1..]))
  }

  /** `skip: offset, take: limit` over an ordered result. */
  function Window<T>(s: seq<T>, offset: nat, limit: nat): (r: seq<T>)
    ensures |r| == if offset >= |s| then 0 else if limit <= |s| - offset then limit else |s| - offset
    ensures forall i :: 0 <= i < |r| ==> offset + i < |s| && r[i] == s[offset + i]
  {
    if offset >= |s| then []
    else if limit <= |s| - offset then s[offset..offset + limit]
    else s[offset..]
  }

  /** A campaign with its tiers, selected contributions, tagline and stats,
      all derived from the live tables. */
  function WithStats(db: Tables, c: Campaign): (r: CampaignWithStats)
    ensures r.campaign == c
    ensures r.tiers == TiersOf(db.tiers, c.id)
    ensures |r.contributions| == |ContributionsOf(db.contributions, c.id)|
    // `select: { amount, contributorAddress, tierId }` of each contribution, in order
    ensures forall i :: 0 <= i < |r.contributions| ==>
              && var k := ContributionsOf(db.contributions, c.id)[i];
              && r.contributions[i] == ContributionFacts(k.amount, k.contributorAddress, k.tierId)
    ensures r.tagline == Tagline(c.description)
    ensures r.stats == StatsOf(c, r.tiers, ContributionsOf(db.contributions, c.id))
  {
    var ts := TiersOf(db.tiers, c.id);
    var ks := ContributionsOf(db.contributions, c.id);
    CampaignWithStats(
      c, ts,
      seq(|ks|, i requires 0 <= i < |ks| => ContributionFacts(ks[i].amount, ks[i].contributorAddress, ks[i].tierId)),
      Tagline(c.description),
      StatsOf(c, ts, ks))
  }

  /** `searchParams.get(name) || fallback`. */
  function ParamOr(param: Option<string>, fallback: string): string
  {
    if param.Some? && param.value != "" then param.value else fallback
  }

  /** The default window parameters read back as 10 and 0. */
  lemma DefaultWindowParses()
    ensures ParseInt("10") == Some(DefaultLimit)
    ensures ParseInt("0") == Some(DefaultOffset)
  {
    assert ParseInt("10") == Some(DefaultLimit) by {
      assert Decimal(DefaultLimit) == "10";
      ParseIntDecimal(DefaultLimit);
    }
    assert ParseInt("0") == Some(DefaultOffset) by {
      assert Decimal(DefaultOffset) == "0";
      ParseIntDecimal(DefaultOffset);
    }
  }

  /** The campaigns of one page: `limit` of them after skipping `offset`,
      newest first. */
  function PageCampaigns(db: Tables, limit: nat, offset: nat): (r: seq<Campaign>)
    ensures |r| <= limit
    ensures offset + limit <= |db.campaigns| ==> |r| == limit
    ensures forall c :: c in r ==> c in db.campaigns
    ensures NewestFirst(r)
    // the page skips `offset` campaigns of the newest-first order and takes the next ones
    ensures |r| == if offset >= |db.campaigns| then 0
                   else if limit <= |db.campaigns| - offset then limit else |db.campaigns| - offset
    ensures forall i :: 0 <= i < |r| ==>
              offset + i < |db.campaigns| && r[i] == SortNewestFirst(db.campaigns)[offset + i]
  {
    var sorted := SortNewestFirst(db.campaigns);
    var page := Window(sorted, offset, limit);
    assert forall c :: c in sorted ==> c in db.campaigns by {
      forall c | c in sorted ensures c in db.campaigns {
        assert c in multiset(sorted);
      }
    }
    page
  }

  /** One page of the listing, each campaign with its live statistics. */
  function ListPage(db: Tables, limit: nat, offset: nat): (r: seq<CampaignWithStats>)
    ensures |r| == |PageCampaigns(db, limit, offset)|
    ensures forall i :: 0 <= i < |r| ==> r[i] == WithStats(db, PageCampaigns(db, limit, offset)[i])
  {
    var page := PageCampaigns(db, limit, offset);
    seq(|page|, i requires 0 <= i < |page| => WithStats(db, page[i]))
  }

  /** The `GET` handler. `queryFails` says whether the `count` or the
      `findMany` call throws. A window the query layer would not accept (a
      NaN or negative limit or offset) is reported as the failure reply
      too. */
  function ListCampaigns(db: Tables, limitParam: Option<string>, offsetParam: Option<string>,
                         queryFails: bool): (r: ListReply)
    // 500 "Failed to fetch campaigns" exactly when a query throws or the
    // window does not parse to non-negative numbers
    ensures r.ListFailed? <==>
              || queryFails
              || ParseInt(ParamOr(limitParam, "10")).None? || ParseInt(ParamOr(limitParam, "10")).value < 0
              || ParseInt(ParamOr(offsetParam, "0")).None? || ParseInt(ParamOr(offsetParam, "0")).value < 0
    // the window listed and echoed is the one the parameters parse to
    ensures r.Listed? ==>
              && r.meta.limit == ParseInt(ParamOr(limitParam, "10")).value
              && r.meta.offset == ParseInt(ParamOr(offsetParam, "0")).value
    ensures r.Listed? ==>
              && r.meta.total == |db.campaigns|
              && 0 <= r.meta.offset && 0 <= r.meta.limit
              && r.campaigns == ListPage(db, r.meta.limit, r.meta.offset)
    ensures !queryFails && (limitParam.None? || limitParam == Some("")) && (offsetParam.None? || offsetParam == Some("")) ==>
              r.Listed? && r.meta == Meta(|db.campaigns|, DefaultLimit, DefaultOffset)
  {
    DefaultWindowParses();
    var limit := ParseInt(ParamOr(limitParam, "10"));
    var offset := ParseInt(ParamOr(offsetParam, "0"));
    if queryFails || limit.None? || offset.None? || limit.value < 0 || offset.value < 0 then ListFailed
    else Listed(ListPage(db, limit.value, offset.value), Meta(|db.campaigns|, limit.value, offset.value))
  }

  /** Parameters written as decimal numbers select exactly that window:
      `?limit=l&offset=o` lists page `l`, `o` and echoes it in the meta. */
  lemma ListsRequestedWindow(db: Tables, limit: nat, offset: nat)
    ensures ListCampaigns(db, Some(Decimal(limit)), Some(Decimal(offset)), false)
            == Listed(ListPage(db, limit, offset), Meta(|db.campaigns|, limit, offset))
  {
    ParseIntDecimal(limit);
    ParseIntDecimal(offset);
  }
}
