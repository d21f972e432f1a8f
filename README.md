# Crowdfunding campaigns: payment reconciliation, campaign and contribution routes, campaign form

This project models, in Dafny, the core of a crowdfunding application. A
creator publishes a campaign with reward tiers; backers pay on chain; a
callback turns a verified payment into a contribution. The model has four
parts.

- **Payment callback** (`POST /api/v1/callback`). A transaction hash is
  looked up at the payment service. The campaign is chosen by three
  conditions: its creator received the payment, it owns a tier whose id is
  the payment's memo, and it has no contribution with this hash yet. A
  tier of that campaign is chosen, a contribution is written, and the
  campaign is read back.
- **Campaign routes** (`GET` and `POST /api/v1/campaigns`).
  - The listing parses `limit`/`offset` like `parseInt` and returns the
    campaigns newest first, in that window. Each campaign carries its
    statistics: raised total, percentage of goal, distinct backers,
    counts per tier and a 100-character tagline.
  - Creation validates the payload against the campaign schema. It then
    creates the campaign and all its tiers in one transaction, so either
    all of them are kept or none.
- **Contribution route** (`POST /api/v1/contributions`). A direct
  contribution passes schema validation, including UUID-shaped ids and a
  500-character message limit. Its campaign must exist, and a given tier
  must belong to that campaign.
- **Campaign form** (`app/start-campaign/page.tsx`). The `CampaignForm`
  class holds the step, the editable tier list and the submission state,
  with the handlers that change them.

The store is the class `Store.Ledger`: three tables (`seq` fields) that
the handler methods update in place. Each handler has two forms:

- a pure function from the old tables to a reply and an optional written
  row (`Callback.Reconciliation`, `Contributions.ContributionEffect`);
- a method on the ledger proved to do exactly what that function says.

Properties are proved about the functions. The main one is
`Store.Consistent`, which holds after every handler:

- ids are unique;
- every tier and contribution points at an existing campaign;
- a contribution's tier belongs to the contribution's campaign.

Environment inputs are parameters:

- `parseFloat` is a function from text to `Option<real>`, where `None`
  stands for NaN. The only assumption about it is the one a lemma states
  explicitly.
- The payment service is a function from hash to `Found`, `NoPayment` or
  `Unreachable`.
- The ids the database generates and the creation time are parameters
  (fresh ids are a precondition).
- Whether a store call throws is a parameter of each handler: which call
  of the callback, the contribution route or the creation transaction
  throws, and whether the listing's `count`/`findMany` throws. A throw
  becomes the handler's 500 reply.

Two behaviours of the code are worth knowing:

- **Tier choice in the callback.** The memo only selects the campaign: it
  must be the id of one of the campaign's tiers. The tier the payment is
  booked against is then chosen by price alone: the first tier of that
  campaign whose price *equals* the parsed invoice amount
  (`app/api/v1/callback/route.ts:51-57`). As a result:
  - a payment is booked against whichever tier has that price, whatever
    the memo says (`Scenarios.PriceBeatsMemo`);
  - a payment whose amount matches no tier price is refused with 404
    (`Scenarios.OverpaymentIsRefused`, `Callback.UnpricedIsRefused`).
- **Hash uniqueness.** The direct contribution route does not check
  whether a transaction hash was already used. `Store.Consistent`
  therefore does not demand unique hashes. The callback's own duplicate
  guard is proved as `Callback.ReplayIsRejected`.

## Model

| member | source | states |
|---|---|---|
| Store.CampaignById | app/api/v1/callback/route.ts:69-74 | the campaign read back by id is a table row with that id; nothing is found exactly when no row has the id |
| Store.CampaignByIdFindsRow | app/api/v1/callback/route.ts:69-74 | with unique ids, reading a campaign back by its id returns that same row |
| Store.TiersOf | app/api/v1/callback/route.ts:42-44 | the tiers loaded with a campaign are exactly the tier rows pointing at it |
| Store.ContributionsOf | app/api/v1/campaigns/route.ts:55-61 | the contributions loaded with a campaign are exactly the contribution rows pointing at it |
| Store.RecordKeepsConsistent | app/api/v1/contributions/route.ts:59-68 | inserting a row with a fresh id, an existing campaign and, if tiered, a tier of that campaign keeps the store consistent |
| Store.OwnsTierLoaded | app/api/v1/contributions/route.ts:48-50 | `campaign.tiers.some(t => t.id === tierId)` over the loaded tiers holds exactly when the tier table has that tier for that campaign |
| Store.TiersOfAppend | app/api/v1/campaigns/route.ts:165-179 | after tiers are appended, a campaign's loaded tiers are its old ones followed by the new ones of that campaign, in order |
| Store.ContributionsOfAppend | app/api/v1/callback/route.ts:59-67 | after a contribution is appended, it is the last of its campaign's contributions and the others are unchanged |
| Stats.Raised | app/api/v1/campaigns/route.ts:68-71 | the raised total of no contributions is 0, and it is never negative when no amount is |
| Stats.RaisedAppend | app/api/v1/campaigns/route.ts:68-71 | the total of two concatenated lists is the sum of their totals |
| Stats.Addresses | app/api/v1/campaigns/route.ts:74-76 | the set holds exactly the contributors' addresses, no more than one per contribution |
| Stats.Backers | app/api/v1/campaigns/route.ts:73-76 | distinct backers never outnumber contributions and are zero exactly when there are none |
| Stats.CountForTier | app/api/v1/campaigns/route.ts:80-86 | a tier's count is at most the number of contributions and zero exactly when none names that tier |
| Stats.ContributionsByTier | app/api/v1/campaigns/route.ts:79-88 | one entry per tier, in tier order, with that tier's id, title and count |
| Stats.HitsAtMostOne | app/api/v1/campaigns/route.ts:79-88 | with unique tier ids, a contribution is counted in at most one tier's entry, and in none exactly when no tier has its tier id |
| Stats.SumCountsStep | app/api/v1/campaigns/route.ts:79-88 | the tier counts of a list add up to those of the list without its first contribution plus the tier entries that contribution hits |
| Stats.TierCountsBounded | app/api/v1/campaigns/route.ts:79-88 | the per-tier counts add up to at most the number of contributions, and to 0 when no contribution has a tier |
| Stats.ZeroCounts | app/api/v1/campaigns/route.ts:79-88 | a campaign without contributions has every tier count at 0 |
| Stats.PercentageRaised | app/api/v1/campaigns/route.ts:101-102 | 0 for a non-positive goal; otherwise percentage × goal = raised × 100, it reaches 100 exactly when the goal is reached, equals 100 exactly when the goal is met exactly, and is never negative for non-negative raised |
| Stats.Tagline | app/api/v1/campaigns/route.ts:90-94 | a description of at most 100 characters is kept whole; a longer one becomes its first 100 characters followed by "..." |
| Stats.StatsOf | app/api/v1/campaigns/route.ts:99-105 | the backers are bounded by, and zero exactly without, contributions; there is one tier entry per tier; the percentage reaches 100 exactly when raised reaches a positive goal |
| Callback.FirstQualifying | app/api/v1/callback/route.ts:28-45 | the campaign found passes the filter (receiver is creator, memo is one of its tiers, hash not yet used), and none is found exactly when no campaign passes |
| Callback.FirstQualifyingIsFirst | app/api/v1/callback/route.ts:28-45 | the campaign found is the first in table order that passes the filter |
| Callback.SelectTier | app/api/v1/callback/route.ts:51-53 | the tier found is priced exactly at the paid amount, and none is found exactly when no tier has that price; a NaN amount matches nothing |
| Callback.SelectTierIsFirst | app/api/v1/callback/route.ts:51-53 | the tier found is the first one, in tier order, with that price |
| Callback.Reconciliation | app/api/v1/callback/route.ts:13-81 | a body that is not JSON is a 500; a missing or empty hash is a 400; a payment service that throws is a 500 and one that knows no payment a 404 "Payment not found", all without a write; a known payment is handled by `Booking`; every rejection except a failing re-read leaves the store untouched; a reconciliation always writes; a throwing store call is never answered 200; a write comes with a reconciliation or with the re-read's 500 |
| Callback.Booking | app/api/v1/callback/route.ts:28-80 | a throwing campaign lookup is a 500; no campaign passing the filter is a 404 "Campaign not found or not valid"; a matched campaign without a tier at the paid price (or a NaN price) is a 404 "Tier not found or not valid"; once a campaign and a tier at the price are found, a throwing insert is a 500 with nothing written and a throwing re-read a 500 after the row was written; a throwing re-read is never a 200; a 500 only comes from a throwing store call; with no fault, a matched campaign and a tier at the price give 200 with that campaign re-read with its tiers |
| Callback.QualifyingIsFound | app/api/v1/callback/route.ts:28-45 | on a consistent store, any campaign that passes the filter is the one the lookup finds |
| Callback.BooksWhenPayable | app/api/v1/callback/route.ts:28-76 | on a consistent store with no throwing call, a payment to a campaign that passes the filter and has a tier priced at the paid amount is answered 200 with that campaign and its tiers, and a row is written |
| Callback.UnpricedIsRefused | app/api/v1/callback/route.ts:51-57 | on a consistent store, a payment to a campaign that passes the filter but has no tier at the paid amount is refused with 404 "Tier not found or not valid" and writes nothing |
| Callback.ReconciliationRow | app/api/v1/callback/route.ts:59-67 | the row a reconciliation writes has the fresh id, this hash, the payer, the parsed invoice amount and no message; it is booked against the first campaign that passes the filter and the first of its tiers, in tier order, priced at exactly that amount |
| Callback.BookingRow | app/api/v1/callback/route.ts:28-67 | once the payment is known, the row written records it against the first campaign that passes the filter and the first tier of that campaign priced at exactly the amount paid |
| Callback.ReconciliationKeepsConsistent | app/api/v1/callback/route.ts:59-67 | on a consistent store with a fresh id, the callback leaves the store consistent |
| Callback.OnlyMemoOwnerQualifies | app/api/v1/callback/route.ts:28-41 | on a consistent store, only the campaign owning the memo tier can pass the filter |
| Callback.UsedHashBlocksFilter | app/api/v1/callback/route.ts:36-40 | once a row with this hash is recorded for the campaign that passed the filter, no campaign passes it again for the same payment |
| Callback.ReplayIsRejected | app/api/v1/callback/route.ts:36-49 | once a hash has been booked, calling the callback again with it writes nothing and, unless the lookup throws, answers 404 "Campaign not found or not valid" |
| Callback.Reconcile | app/api/v1/callback/route.ts:13-81 | the handler's reply and the new tables are exactly those of `Reconciliation` on the old tables, and the store stays consistent |
| Callback.Book | app/api/v1/callback/route.ts:28-76 | after the payment is known, the reply and the new tables are exactly those of `Booking`: the contribution is appended only on the paths that insert it, and the re-read returns the matched campaign |
| Campaigns.Check | app/api/v1/campaigns/route.ts:7 | a rule reports no issue exactly when it holds, and its issue sits at the rule's path |
| Campaigns.TierIssues | app/api/v1/campaigns/route.ts:6-18 | a submitted tier has no issues exactly when title, description, emoji and perk are non-empty and the amount parses to a positive number; each issue's path is under `tiers[index]` |
| Campaigns.TiersIssues | app/api/v1/campaigns/route.ts:33 | the tier list has no issues exactly when every tier is accepted |
| Campaigns.CampaignIssues | app/api/v1/campaigns/route.ts:20-34 | the payload has no issues exactly when every rule of the campaign schema holds |
| Campaigns.EmojiOf | app/api/v1/campaigns/route.ts:32 | an absent emoji becomes "🚀" and a given one is kept |
| Campaigns.NewCampaign | app/api/v1/campaigns/route.ts:154-163 | the row created has the given id and time, the parsed goal (which is positive), the submitted emoji or the "🚀" default, the submitted title, description and creator, and the submitted end date exactly when a non-empty one was sent |
| Campaigns.NewTier | app/api/v1/campaigns/route.ts:168-177 | the tier row has its id, the campaign's id, the parsed amount, which is positive, and the submitted title, description, emoji and perk |
| Campaigns.NewTiers | app/api/v1/campaigns/route.ts:166-179 | one tier row per submitted tier, in order, each the row `NewTier` builds |
| Campaigns.StageTiers | app/api/v1/campaigns/route.ts:166-179 | the tier inserts fail exactly when one of them throws; otherwise the staged rows are `NewTiers` |
| Campaigns.NewTiersFresh | app/api/v1/campaigns/route.ts:166-179 | tier rows built from fresh, distinct ids have distinct ids, clash with no existing tier and all point at the new campaign |
| Campaigns.CreationEffect | app/api/v1/campaigns/route.ts:129-198 | a payload is reported invalid, with at least one issue, exactly when it breaks the schema; a campaign is created exactly when the payload is valid and no insert throws; a failed request leaves every table as it was; a created campaign is the `NewCampaign` row for the payload, with the given id, and is appended with one row per submitted tier, contributions untouched |
| Campaigns.CreatedTiersLoaded | app/api/v1/campaigns/route.ts:152-182 | after a creation on a consistent store with fresh ids, the new campaign's loaded tiers are exactly its submitted tiers, in submission order |
| Campaigns.CreationEffectKeepsConsistent | app/api/v1/campaigns/route.ts:152-182 | on a consistent store with fresh ids, creation leaves the store consistent |
| Campaigns.CreationKeepsConsistent | app/api/v1/campaigns/route.ts:152-182 | adding a campaign with a fresh id together with tiers that have fresh, distinct ids and point at it keeps the store consistent |
| Campaigns.RunCreation | app/api/v1/campaigns/route.ts:151-187 | for a valid payload, the transaction's reply and the new tables are exactly those of `CreationEffect`, and the store stays consistent |
| Campaigns.CreateCampaign | app/api/v1/campaigns/route.ts:129-198 | the handler's reply and the new tables are exactly those of `CreationEffect` on the old tables, and the store stays consistent |
| Campaigns.TrimStart | app/api/v1/campaigns/route.ts:40-41 | `parseInt` drops leading white space: what remains is a suffix of the input and does not start with white space, and every character dropped is white space |
| Campaigns.DigitRun | app/api/v1/campaigns/route.ts:40-41 | the digit run is the longest prefix of digits in the radix |
| Campaigns.LeadingNumber | app/api/v1/campaigns/route.ts:40-41 | there is no number exactly when the text does not start with a digit |
| Campaigns.ParseInt | app/api/v1/campaigns/route.ts:40-41 | blank text is NaN; the number is negative only after a leading minus sign, and never negative without one |
| Campaigns.DecimalDigitsValue | app/api/v1/campaigns/route.ts:40-41 | the decimal digits written for n read back as n |
| Campaigns.DigitRunAll | app/api/v1/campaigns/route.ts:40-41 | text made only of digits is read in full |
| Campaigns.ParseIntUnsignedDecimal | app/api/v1/campaigns/route.ts:40-41 | text that starts with a decimal digit and has no "0x" prefix parses to the value of its leading digit run |
| Campaigns.ParseIntDecimal | app/api/v1/campaigns/route.ts:40-41 | `parseInt` of the decimal text of n is n |
| Campaigns.DefaultWindowParses | app/api/v1/campaigns/route.ts:40-41 | the defaults "10" and "0" parse to limit 10 and offset 0 |
| Campaigns.InsertNewest | app/api/v1/campaigns/route.ts:50-52 | inserting into a newest-first list keeps it newest first and adds exactly that campaign |
| Campaigns.HeadBeforeRest | app/api/v1/campaigns/route.ts:50-52 | a newer head in front of a newest-first rest keeps the order and the contents |
| Campaigns.SortNewestFirst | app/api/v1/campaigns/route.ts:50-52 | the listing order is by creation time descending and is a permutation of the table |
| Campaigns.Window | app/api/v1/campaigns/route.ts:48-49 | `skip`/`take` returns the elements from the offset on, as many as the limit allows and the list holds |
| Campaigns.WithStats | app/api/v1/campaigns/route.ts:47-106 | each listed campaign carries its own tiers, the amount, contributor address and tier id of each of its contributions in order, its tagline and its statistics |
| Campaigns.PageCampaigns | app/api/v1/campaigns/route.ts:47-63 | the page is the campaigns of the newest-first order from position `offset` on, as many as the limit allows and the table holds; it never exceeds the limit, holds only table rows and is newest first |
| Campaigns.ListPage | app/api/v1/campaigns/route.ts:66-107 | one entry with statistics per campaign of the page, in page order |
| Campaigns.ListCampaigns | app/api/v1/campaigns/route.ts:37-127 | the reply is 500 "Failed to fetch campaigns" exactly when `count`/`findMany` throws or the window does not parse to non-negative numbers; a listing reports the table size as total and lists and echoes the window the parameters parse to; with no parameters the window is limit 10, offset 0 |
| Campaigns.ListsRequestedWindow | app/api/v1/campaigns/route.ts:40-49 | `limit` and `offset` given as decimal numbers list exactly that page and echo them in the meta |
| Contributions.InputAccepted | app/api/v1/contributions/route.ts:6-13 | an accepted payload has a positive amount, a non-empty address, a 36-character campaign id, a non-empty tier id when one is given and a message of at most 500 characters |
| Contributions.ContributionEffect | app/api/v1/contributions/route.ts:15-84 | a row is written exactly when the reply is 201 with that row; a body that is not JSON and a throwing lookup are 500s without a write; a throwing insert writes nothing, and for a valid payload to an existing campaign (with its own tier, if one is given) it is a 500 "Failed to create contribution"; an invalid payload is a 400 "Validation failed"; an unknown campaign is a 404; a tier of another campaign is a 400; a row is created exactly when the payload is valid, its campaign exists, a given tier belongs to that campaign and no call throws; the row created has the fresh id and the submitted amount, address, campaign, tier and hash, but no message |
| Contributions.ContributionKeepsConsistent | app/api/v1/contributions/route.ts:59-68 | on a consistent store with a fresh id, the route leaves the store consistent |
| Contributions.UntieredIsAccepted | app/api/v1/contributions/route.ts:48-68 | a valid contribution without a tier, to an existing campaign, is created without a tier |
| Contributions.CreateContribution | app/api/v1/contributions/route.ts:15-84 | the route's reply and the new tables are exactly those of `ContributionEffect` on the old tables, and the store stays consistent |
| StartCampaign.WithField | app/start-campaign/page.tsx:131-135 | `{ ...tier, [field]: value }` sets that field and no other |
| StartCampaign.KeepOthersDrops | app/start-campaign/page.tsx:127-129 | filtering out one position drops exactly the element there, or nothing when no element is there |
| StartCampaign.RemoveAt | app/start-campaign/page.tsx:127-129 | removing a valid index leaves the elements before and after it, in order; any other index leaves the list as it is |
| StartCampaign.TierError | app/start-campaign/page.tsx:157-162 | a tier passes exactly when title, description and perk are set and the amount is not a number at or below zero (NaN passes); a failing tier gets the message of its first failing check, in the order title, description, perk, amount |
| StartCampaign.FirstTierError | app/start-campaign/page.tsx:156-165 | no error exactly when every tier passes |
| StartCampaign.FirstTierErrorIsFirst | app/start-campaign/page.tsx:156-165 | the error reported is that of the first failing tier |
| StartCampaign.AddedTierFails | app/start-campaign/page.tsx:120-125 | a freshly added tier always blocks submission, and when the others pass, it is reported as "Tier title is required" |
| StartCampaign.InfoComplete | app/start-campaign/page.tsx:142-145 | the step gate needs a title and a description; a non-empty goal must parse to a positive number, and an empty goal, read as "0", never passes |
| StartCampaign.CampaignForm.constructor | app/start-campaign/page.tsx:46-55 | the form starts at the campaign-info step, idle, with one default tier |
| StartCampaign.CampaignForm.EditInfo | app/start-campaign/page.tsx:65-73 | the title, description and goal fields take the values typed |
| StartCampaign.CampaignForm.AddTier | app/start-campaign/page.tsx:120-125 | one default tier is appended and the others stay as they were |
| StartCampaign.CampaignForm.RemoveTier | app/start-campaign/page.tsx:127-129 | the tier at the index is removed, or nothing changes when the index is out of range |
| StartCampaign.CampaignForm.UpdateTier | app/start-campaign/page.tsx:131-135 | exactly one field of exactly one tier changes |
| StartCampaign.CampaignForm.GoToNextStep | app/start-campaign/page.tsx:137-150 | the form moves to the tiers step exactly when title and description are set and the goal (empty read as "0") parses to a positive number; otherwise the step stays |
| StartCampaign.CampaignForm.GoToPreviousStep | app/start-campaign/page.tsx:152-154 | the form is back at the campaign-info step |
| StartCampaign.CampaignForm.ValidateTiers | app/start-campaign/page.tsx:156-165 | the scan returns the first tier's error and nothing exactly when all tiers pass |
| StartCampaign.CampaignForm.HandleSubmit | app/start-campaign/page.tsx:199-216 | off the tiers step nothing happens; on it a tier error is shown and stops submission; otherwise the form is submitted |
| StartCampaign.CampaignForm.SubmitSettled | app/start-campaign/page.tsx:74-117 | without a wallet the error asks to connect one; a 2xx ends in success; a refusal shows the server's error or "Failed to create campaign"; a network failure shows its message; the form is no longer submitting in every case |
| Scenarios.RaisedGrowsByPayment | app/api/v1/callback/route.ts:59-67 | after a payment is booked, the campaign's raised total grows by exactly the booked amount and the payer is one of its backers |
| Scenarios.PriceBeatsMemo | app/api/v1/callback/route.ts:28-57 | a payment whose memo names the 10 tier but which pays 25 is booked against the 25 tier |
| Scenarios.OverpaymentIsRefused | app/api/v1/callback/route.ts:51-57 | paying 15 where the tiers cost 10 and 25 is refused with 404 "Tier not found or not valid" |
| Scenarios.FormTierCheckIsLooser | app/start-campaign/page.tsx:156-165 | every tier the server schema accepts passes the form check; a tier the form passes is refused by the server exactly when its emoji is empty or its amount is not a number |
| Scenarios.InfoGateMatchesSchema | app/start-campaign/page.tsx:137-150 | when `parseFloat` reads "0" as 0 and "" as NaN, the step gate demands exactly what the schema demands of title, description and goal |

## Left out

- Floating point: amounts are exact reals, so sums, the `===` price comparison and the percentage are exact. Rounding of JavaScript numbers is not modelled, and `parseFloat` is a parameter rather than a model of the JavaScript function.
- String lengths are counted in characters, not in UTF-16 code units. This affects the 100-character tagline cut, the 500-character message limit and emoji such as "🚀".
- Campaigns.ListCampaigns: which of `count` and `findMany` throws is not distinguished; either gives `ListFailed` (500). A NaN or negative `limit`/`offset` is reported as `ListFailed` (500) too. What the query layer actually does with such a window (an error, or a negative `take` read backwards) is not modelled.
- Campaigns.StageTiers: the tier inserts run concurrently (`Promise.all`). The model stages them in submission order, and a throw at any of them aborts the transaction.
- Validation details: only the issue paths and messages are modelled, not the nested shape zod's `format()` produces. Payload values of the wrong JSON type (a number where text is expected) are not modelled: fields are typed and the unreadable body is its own case.
- Campaigns.NewCampaign: `new Date(endDate)` is not modelled. The end date is kept as the submitted text, and an unparsable date is not rejected.
- StartCampaign.CampaignForm.UpdateTier: it requires an index of an existing tier, the only kind the rendered list passes. JavaScript would extend the array for any other index.
- StartCampaign.CampaignForm.SubmitSettled: the payload sent, the `fetch` call and the redirect after success are not modelled. The server's answer is a parameter.
- Contributions.IsUuid: it checks the 8-4-4-4-12 hexadecimal shape only. Some zod versions also check the version and variant digits; those are not modelled.
- Row order: the tables keep insertion order, and `include: { tiers: true }` and `findFirst` without `orderBy` are modelled as returning rows in that order. The database gives no such guarantee, so which tier is "first" at a given price, and which campaign is found first, follow this assumption.
- Campaigns.ParseInt: it parses to unbounded integers. Precision loss above 2^53 is not modelled.
- Database constraints outside the shown code (the schema file) are not part of this model. `Store.Consistent` states only the integrity the routes themselves maintain.
- The response bodies beyond the status and error text: the JSON envelope, and the `details` message of a 500.
- Logging (`console.error`), the form's rendering, the emoji pickers and the click-outside handler.
- The routes under `app/api/v1/campaigns/[id]`, the payment service's client, and the other pages and hooks are not part of this model.
