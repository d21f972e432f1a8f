/** The non-rendering state of the campaign-creation form: the editable
    tier list, the two-step `campaign-info` / `tiers` flow, and the
    submission state. */
module StartCampaign {
  import opened Common

  datatype Step = CampaignInfo | TiersStep

  /** A tier as the form edits it: every field is text. */
  datatype TierData = TierData(
    title: string,
    description: string,
    amount: string,
    emoji: string,
    perk: string)

  /** The names `updateTier` accepts (`keyof TierData`). */
  datatype TierField = Title | Description | Amount | Emoji | Perk

  datatype FormState = FormState(isSubmitting: bool, isSuccess: bool, error: Option<string>)

  /** How the campaign `POST` settled, as `onSubmit` sees it. */
  datatype ServerReply =
    | Accepted(campaignId: string)
    | Refused(error: Option<string>)
    | Unreachable(message: string)

  const DefaultTier := TierData("", "", "0", "🏅", "")
  const Idle := FormState(false, false, None)

  const TitleRequired := "Tier title is required"
  const DescriptionRequired := "Tier description is required"
  const PerkRequired := "Tier perk is required"
  const AmountNotPositive := "Tier amount must be greater than 0"
  const ConnectWallet := "Please connect your wallet to create a campaign"
  const CreateFailed := "Failed to create campaign"

  function FieldOf(t: TierData, f: TierField): string
  {
    match f
    case Title => t.title
    case Description => t.description
    case Amount => t.amount
    case Emoji => t.emoji
    case Perk => t.perk
  }

  /** `{ ...tier, [field]: value }`: only `field` changes. */
  function WithField(t: TierData, f: TierField, v: string): (r: TierData)
    ensures FieldOf(r, f) == v
    ensures forall g :: g != f ==> FieldOf(r, g) == FieldOf(t, g)
  {
    match f
    case Title => t.(title := v)
    case Description => t.(description := v)
    case Amount => t.(amount := v)
    case Emoji => t.(emoji := v)
    case Perk => t.(perk := v)
  }

  /** `s.filter((_, i) => i !== index)` over the part of `s` whose first
      element sits at position `from`. */
  function KeepOthers<T>(s: seq<T>, index: int, from: int): seq<T>
  {
    if s == [] then []
    else (if from == index then [] else [s[0]]) + KeepOthers(s[1..], index, from + 1)
  }

  lemma {:induction false} KeepOthersDrops<T>(s: seq<T>, index: int, from: int)
    ensures from <= index < from + |s| ==>
              KeepOthers(s, index, from) == s[..index - from] + s[index - from + 1..]
    ensures !(from <= index < from + |s|) ==> KeepOthers(s, index, from) == s
  {
    if s != [] {
      KeepOthersDrops(s[1..], index, from + 1);
      if from == index {
        assert KeepOthers(s[1..], index, from + 1) == s[1..];
      } else if from < index < from + |s| {
        assert s[..index - from] == [s[0]] + s[1..][..index - from - 1];
        assert s[index - from + 1..] == s[1..][index - from..];
      } else {
        assert s == [s[0]] + s[1..];
      }
    }
  }

  /** `tiers.filter((_, i) => i !== index)`: exactly the element at a valid
      index is removed, the others keep their order; any other index
      changes nothing. */
  function RemoveAt<T>(s: seq<T>, index: int): (r: seq<T>)
    ensures 0 <= index < |s| ==> r == s[..index] + s[index + 1..] && |r| == |s| - 1
    ensures !(0 <= index < |s|) ==> r == s
  {
    KeepOthersDrops(s, index, 0);
    KeepOthers(s, index, 0)
  }

  /** The first check a tier fails, in the order title, description, perk,
      amount. An amount that does not parse (NaN) passes: NaN <= 0 is false. */
  function TierError(t: TierData, parseFloat: Parser): (r: Option<string>)
    ensures r.None? <==> t.title != "" && t.description != "" && t.perk != ""
                         && !(parseFloat(t.amount).Some? && parseFloat(t.amount).value <= 0.0)
    // each message names the first missing field, in the order checked
    ensures r == Some(TitleRequired) <==> t.title == ""
    ensures r == Some(DescriptionRequired) <==> t.title != "" && t.description == ""
    ensures r == Some(PerkRequired) <==> t.title != "" && t.description != "" && t.perk == ""
    ensures r == Some(AmountNotPositive) <==>
              t.title != "" && t.description != "" && t.perk != ""
              && parseFloat(t.amount).Some? && parseFloat(t.amount).value <= 0.0
  {
    if t.title == "" then Some(TitleRequired)
    else if t.description == "" then Some(DescriptionRequired)
    else if t.perk == "" then Some(PerkRequired)
    else if parseFloat(t.amount).Some? && parseFloat(t.amount).value <= 0.0 then Some(AmountNotPositive)
    else None
  }

  /** The error of the first failing tier, `None` when all pass. */
  function FirstTierError(ts: seq<TierData>, parseFloat: Parser): (r: Option<string>)
    ensures r.None? <==> forall t :: t in ts ==> TierError(t, parseFloat).None?
  {
    if ts == [] then None
    else if TierError(ts[0], parseFloat).Some? then TierError(ts[0], parseFloat)
    else FirstTierError(ts[1..], parseFloat)
  }

  /** The error reported is that of the earliest failing tier. */
  lemma {:induction false} FirstTierErrorIsFirst(ts: seq<TierData>, parseFloat: Parser)
    requires FirstTierError(ts, parseFloat).Some?
    ensures exists i :: 0 <= i < |ts| && FirstTierError(ts, parseFloat) == TierError(ts[i], parseFloat)
                        && forall j :: 0 <= j < i ==> TierError(ts[j], parseFloat).None?
  {
    if TierError(ts[0], parseFloat).None? {
      var rest := ts[1..];
      FirstTierErrorIsFirst(rest, parseFloat);
      var i :| 0 <= i < |rest| && FirstTierError(rest, parseFloat) == TierError(rest[i], parseFloat)
               && forall j :: 0 <= j < i ==> TierError(rest[j], parseFloat).None?;
      forall j | 0 <= j < i + 1 ensures TierError(ts[j], parseFloat).None? {
        if j > 0 {
          assert ts[j] == rest[j - 1];
        }
      }
      assert ts[i + 1] == rest[i];
    }
  }

  /** Adding a tier never clears a validation error: the default tier fails
      ("Tier title is required") until it is edited. */
  lemma {:induction false} AddedTierFails(ts: seq<TierData>, parseFloat: Parser)
    ensures FirstTierError(ts + [DefaultTier], parseFloat).Some?
    ensures FirstTierError(ts, parseFloat).None? ==> FirstTierError(ts + [DefaultTier], parseFloat) == Some(TitleRequired)
  {
    if ts == [] {
      assert ts + [DefaultTier] == [DefaultTier];
    } else {
      assert (ts + [DefaultTier])[1..] == ts[1..] + [DefaultTier];
      AddedTierFails(ts[1..], parseFloat);
    }
  }

  /** The gate from `campaign-info` to `tiers`: title and description are
      set and `parseFloat(goal || '0') > 0`. */
  predicate InfoComplete(title: string, description: string, goal: string, parseFloat: Parser): (r: bool)
    ensures r ==> title != "" && description != ""
    ensures goal != "" ==> (r <==> title != "" && description != "" && PositiveNumber(goal, parseFloat))
    // an empty goal is read as "0", which is not positive
    ensures goal == "" && parseFloat("0") == Some(0.0) ==> !r
  {
    && title != ""
    && description != ""
    && PositiveNumber(if goal == "" then "0" else goal, parseFloat)
  }

  /** The form component's state. */
  class CampaignForm {
    var step: Step
    var tiers: seq<TierData>
    var formState: FormState
    var title: string
    var description: string
    var goal: string

    /** The initial state: first step, one default tier, idle. */
    constructor ()
      ensures step == CampaignInfo && tiers == [DefaultTier] && formState == Idle
      ensures title == "" && description == "" && goal == ""
    {
      step, tiers, formState := CampaignInfo, [DefaultTier], Idle;
      title, description, goal := "", "", "";
    }

    /** The campaign-info fields' `handleChange`. */
    method EditInfo(newTitle: string, newDescription: string, newGoal: string)
      modifies this`title, this`description, this`goal
      ensures title == newTitle && description == newDescription && goal == newGoal
    {
      title, description, goal := newTitle, newDescription, newGoal;
    }

    /** `addTier`: one default tier is appended, the others are untouched. */
    method AddTier()
      modifies this`tiers
      ensures tiers == old(tiers) + [DefaultTier]
    {
      tiers := tiers + [DefaultTier];
    }

    /** `removeTier(index)`. */
    method RemoveTier(index: int)
      modifies this`tiers
      ensures tiers == RemoveAt(old(tiers), index)
      ensures 0 <= index < |old(tiers)| ==> |tiers| == |old(tiers)| - 1
      ensures !(0 <= index < |old(tiers)|) ==> tiers == old(tiers)
    {
      tiers := RemoveAt(tiers, index);
    }

    /** `updateTier(index, field, value)`, called with indices of rendered
      tiers only. */
    method UpdateTier(index: nat, field: TierField, value: string)
      requires index < |tiers|
      modifies this`tiers
      ensures |tiers| == |old(tiers)|
      ensures FieldOf(tiers[index], field) == value
      ensures forall g :: g != field ==> FieldOf(tiers[index], g) == FieldOf(old(tiers[index]), g)
      ensures forall j :: 0 <= j < |tiers| && j != index ==> tiers[j] == old(tiers[j])
    {
      tiers := tiers[index := WithField(tiers[index], field, value)];
    }

    /** `goToNextStep`: move to `tiers` only when the gate passes. */
    method GoToNextStep(parseFloat: Parser)
      modifies this`step
      ensures step == if InfoComplete(title, description, goal, parseFloat) then TiersStep else old(step)
    {
      var hasTitle := title != "";
      var hasDescription := description != "";
      var hasValidGoal := PositiveNumber(if goal == "" then "0" else goal, parseFloat);
      var hasErrors := !hasTitle || !hasDescription || !hasValidGoal;
      if !hasErrors {
        step := TiersStep;
      }
    }

    /** `goToPreviousStep`. */
    method GoToPreviousStep()
      modifies this`step
      ensures step == CampaignInfo
    {
      step := CampaignInfo;
    }

    /** `validateTiers`: scan the tiers in order and return the first error;
      `None` exactly when every tier passes (so also for no tiers). */
    method ValidateTiers(parseFloat: Parser) returns (err: Option<string>)
      ensures err == FirstTierError(tiers, parseFloat)
      ensures err.None? <==> forall t :: t in tiers ==> TierError(t, parseFloat).None?
    {
      var i := 0;
      while i < |tiers|
        invariant 0 <= i <= |tiers|
        invariant FirstTierError(tiers, parseFloat) == FirstTierError(tiers[i..], parseFloat)
      {
        assert tiers[i..][1..] == tiers[i + 1..];
        var e := TierError(tiers[i], parseFloat);
        if e.Some? {
          return e;
        }
        i := i + 1;
      }
      return None;
    }

    /** `handleSubmit`: outside the `tiers` step nothing happens; in it, a
      tier error is shown and nothing is submitted, otherwise the form is
      submitted (`submitted`). */
    method HandleSubmit(parseFloat: Parser) returns (submitted: bool)
      modifies this`formState
      ensures step != TiersStep ==> !submitted && formState == old(formState)
      ensures step == TiersStep && FirstTierError(tiers, parseFloat).Some? ==>
                !submitted && formState == FormState(false, false, FirstTierError(tiers, parseFloat))
      ensures step == TiersStep && FirstTierError(tiers, parseFloat).None? ==>
                submitted && formState == old(formState)
    {
      submitted := false;
      if step == TiersStep {
        var tierError := ValidateTiers(parseFloat);
        if tierError.Some? {
          formState := FormState(false, false, tierError);
          return;
        }
        submitted := true;
      }
    }

    /** `onSubmit` once it has settled: without a wallet address the error
      asks to connect one; otherwise the server's answer decides. */
    method SubmitSettled(address: Option<string>, reply: ServerReply)
      modifies this`formState
      ensures (address.None? || address == Some("")) ==> formState == FormState(false, false, Some(ConnectWallet))
      ensures address.Some? && address.value != "" ==>
                formState == match reply
                  case Accepted(_) => FormState(false, true, None)
                  case Refused(e) => FormState(false, false, Some(if e.Some? && e.value != "" then e.value else CreateFailed))
                  case Unreachable(m) => FormState(false, false, Some(m))
    {
      formState := FormState(true, false, None);
      if address.None? || address == Some("") {
        formState := FormState(false, false, Some(ConnectWallet));
        return;
      }
      match reply
      case Accepted(_) =>
        formState := FormState(false, true, None);
      case Refused(e) =>
        formState := FormState(false, false, Some(if e.Some? && e.value != "" then e.value else CreateFailed));
      case Unreachable(m) =>
        formState := FormState(false, false, Some(m));
    }
  }
}
