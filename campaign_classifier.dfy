/**
 * `CampaignClassifier`: a buyer of exactly `"Not set"` marks a campaign,
 * any other string a deal; `None` and non-strings are errors for `classify`
 * and simply "not a campaign" for `is_campaign`.
 */
module CampaignClassifier {
  import opened Wrappers
  import opened PyText
  import opened PyValue
  import opened Exceptions

  /** `CampaignClassifier.CAMPAIGN_BUYER_VALUE` */
  const CampaignBuyerValue: string := "Not set"

  /** `CampaignType.CAMPAIGN.value` and `CampaignType.DEAL.value` */
  const Campaign: string := "campaign"
  const Deal: string := "deal"

  /** `ClassificationResult`; the confidence is always the float `1.0`. */
  datatype ClassificationResult = ClassificationResult(campaignType: string, confidence: Dec, reasoning: string)

  const FullConfidence: Dec := Dec(1, 0)

  /** `CampaignClassifier.classify(buyer)` */
  function Classify(buyer: Value): (r: Result<ClassificationResult, PyError>)
    ensures buyer.VNone? <==> r.Err? && r.error.ClassificationError?
    ensures !buyer.VNone? && !buyer.VStr? <==> r.Err? && r.error.TypeError?
    ensures r.Ok? ==> r.value.confidence == FullConfidence
    ensures r.Ok? ==> (r.value.campaignType == Campaign <==> buyer == VStr(CampaignBuyerValue))
    ensures r.Ok? ==> (r.value.campaignType == Campaign || r.value.campaignType == Deal)
  {
    if buyer.VNone? then Err(ClassificationError("Buyer field cannot be None"))
    else if !buyer.VStr? then Err(TypeError("Buyer field must be a string"))
    else if buyer.s == CampaignBuyerValue then
      Ok(ClassificationResult(Campaign, FullConfidence, "Exact match: buyer = '" + CampaignBuyerValue + "'"))
    else
      Ok(ClassificationResult(Deal, FullConfidence, "Non-campaign buyer: '" + buyer.s + "'"))
  }

  /** `CampaignClassifier.is_campaign(buyer)`: never raises. */
  function IsCampaign(buyer: Value): (b: bool)
    ensures b <==> buyer == VStr(CampaignBuyerValue)
  {
    match Classify(buyer)
    case Ok(result) => result.campaignType == Campaign
    case Err(_) => false
  }

  /** `CampaignClassifier.is_deal(buyer)` */
  function IsDeal(buyer: Value): bool {
    !IsCampaign(buyer)
  }

  /** `None` and non-strings count as deals. */
  lemma DealComplement(buyer: Value)
    ensures IsDeal(buyer) <==> buyer != VStr(CampaignBuyerValue)
    ensures buyer.VNone? ==> IsDeal(buyer)
  {
  }

  /** Case and whitespace variants of the marker are deals. */
  lemma VariantsAreDeals(s: string)
    requires s != CampaignBuyerValue
    ensures Classify(VStr(s)).Ok? && Classify(VStr(s)).value.campaignType == Deal
  {
  }

  /** `CampaignClassifier.get_classification_reasoning(buyer)` */
  function GetClassificationReasoning(buyer: Value): (text: string)
    ensures Classify(buyer).Ok? ==> text == Classify(buyer).value.reasoning
    ensures Classify(buyer).Err? ==> text == "Classification error: " + Message(Classify(buyer).error)
  {
    match Classify(buyer)
    case Ok(result) => result.reasoning
    case Err(e) => "Classification error: " + Message(e)
  }

  /** `CampaignClassifier.validate_buyer_format(buyer)` */
  function ValidateBuyerFormat(buyer: Value): (b: bool)
    ensures b <==> buyer.VStr?
  {
    buyer.VStr?
  }

  /** Exactly the buyers `validate_buyer_format` accepts are the ones `classify` classifies. */
  lemma FormatMeansClassifiable(buyer: Value)
    ensures ValidateBuyerFormat(buyer) <==> Classify(buyer).Ok?
  {
  }

  /** The module-level `classify_buyer(buyer)` */
  function ClassifyBuyer(buyer: Value): (r: Result<string, PyError>)
    ensures r.Ok? <==> buyer.VStr?
    ensures r.Ok? ==> (r.value == Campaign <==> IsCampaign(buyer))
  {
    var result :- Classify(buyer);
    Ok(result.campaignType)
  }

  /** The module-level `is_campaign_buyer(buyer)` */
  function IsCampaignBuyer(buyer: Value): bool {
    IsCampaign(buyer)
  }

  // ---------------------------------------------------------------------
  // get_campaign_statistics

  /** The dictionary `get_campaign_statistics` returns; percentages as exact reals. */
  datatype Statistics = Statistics(
    totalCount: nat, campaignCount: nat, dealCount: nat,
    campaignPercentage: real, dealPercentage: real, invalidCount: nat)

  /** `x / total * 100`, or `0.0` without valid entries. */
  function Percentage(part: nat, total: nat): real {
    if total > 0 then part as real / total as real * 100.0 else 0.0
  }

  /** Two parts of a non-empty whole give percentages that add up to 100. */
  lemma PercentagesAddUp(a: nat, b: nat)
    requires a + b > 0
    ensures Percentage(a, a + b) + Percentage(b, a + b) == 100.0
  {
    var t := (a + b) as real;
    assert a as real / t + b as real / t == (a as real + b as real) / t;
    assert (a as real + b as real) / t == 1.0;
  }

  /** `CampaignClassifier.get_campaign_statistics(buyer_list)` */
  method GetCampaignStatistics(buyers: seq<Value>) returns (st: Statistics)
    ensures st.totalCount == |buyers| && st.invalidCount == 0
    ensures st.campaignCount == multiset(buyers)[VStr(CampaignBuyerValue)]
    ensures st.campaignCount + st.dealCount == st.totalCount
    ensures st.campaignPercentage == Percentage(st.campaignCount, st.totalCount)
    ensures st.dealPercentage == Percentage(st.dealCount, st.totalCount)
  {
    if |buyers| == 0 {
      return Statistics(0, 0, 0, 0.0, 0.0, 0);
    }
    var campaignCount: nat := 0;
    var dealCount: nat := 0;
    var invalidCount: nat := 0;
    var i := 0;
    while i < |buyers|
      invariant 0 <= i <= |buyers|
      invariant campaignCount == multiset(buyers[..i])[VStr(CampaignBuyerValue)]
      invariant campaignCount + dealCount == i
      invariant invalidCount == 0
    {
      assert buyers[..i + 1] == buyers[..i] + [buyers[i]];
      if IsCampaign(buyers[i]) {
        campaignCount := campaignCount + 1;
      } else {
        dealCount := dealCount + 1;
      }
      i := i + 1;
    }
    assert buyers[..i] == buyers;
    var totalValid := campaignCount + dealCount;
    st := Statistics(|buyers|, campaignCount, dealCount,
                     Percentage(campaignCount, totalValid), Percentage(dealCount, totalValid), invalidCount);
  }
}
