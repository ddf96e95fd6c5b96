/**
 * `BusinessConstants`: the buyer value that marks a campaign, the
 * campaign-buyer test every layer shares, and the metaclass guard that keeps
 * the upper-case constants from being reassigned.
 */
module BusinessConstants {
  import opened Wrappers
  import opened PyText
  import opened PyDate
  import opened PyValue
  import opened Exceptions

  /** `CAMPAIGN_BUYER_VALUE` */
  const CampaignBuyerValue: string := "Not set"

  /**
   * `BusinessConstants.is_campaign_buyer(buyer)`: `None` is never a campaign;
   * anything else is compared by its `str()`, exactly. An object whose
   * `__str__` raises counts as not a campaign.
   */
  function IsCampaignBuyer(buyer: Value): (b: bool)
    ensures b <==> !buyer.VNone? && StrOf(buyer) == Some(CampaignBuyerValue)
  {
    if buyer.VNone? then false
    else
      match StrOf(buyer)
      case None => false
      case Some(text) => text == CampaignBuyerValue
  }

  /** `is_campaign_buyer(CAMPAIGN_BUYER_VALUE)` */
  lemma ConstantIsCampaign()
    ensures IsCampaignBuyer(VStr(CampaignBuyerValue))
  {
  }

  /** For strings the test is plain equality: no case folding, no trimming. */
  lemma StringBuyer(s: string)
    ensures IsCampaignBuyer(VStr(s)) <==> s == "Not set"
  {
  }

  /** The first character of `str()` for the built-in non-string values. */
  lemma StrOfFirst(v: Value)
    requires !v.VNone? && !v.VStr? && !v.VObject?
    ensures StrOf(v).Some? ==> |StrOf(v).value| > 0 && StrOf(v).value[0] != 'N'
  {
    match v
    case VBool(b) =>
    case VInt(i) =>
      if i < 0 {
        assert IntText(i)[0] == '-';
      } else {
        assert IsDigit(NatText(i)[0]);
      }
    case VFloat(f) =>
      var n := Normalize(f);
      var a: nat := if n.mant < 0 then -n.mant else n.mant;
      var p := Pow10(n.exp);
      DivModNonNeg(a, p);
      var t := DecText(f);
      if n.mant < 0 {
        assert t[0] == '-';
      } else if n.exp == 0 {
        assert t[0] == NatText(a)[0];
      } else {
        assert t[0] == NatText(a / p)[0];
      }
    case VDate(d) =>
      assert IsoText(d)[0] == ZeroPad(d.year, 4)[0];
    case VDateTime(d) =>
      assert MidnightText(d)[0] == IsoText(d)[0] == ZeroPad(d.year, 4)[0];
    case VList(items) =>
      var r := ReprList(v, items);
      if items != [] && r.Some? {
        assert r.value[0] == '[';
      }
  }

  /** Numbers, booleans, dates and lists are never campaign buyers: their text cannot start with `N`. */
  lemma BuiltinNeverCampaign(v: Value)
    requires !v.VNone? && !v.VStr? && !v.VObject?
    ensures !IsCampaignBuyer(v)
  {
    StrOfFirst(v);
  }

  /**
   * The class object with its attributes, guarded by `BusinessConstantsMeta`.
   * `attrs` holds what `hasattr` finds: the constant and the class method.
   */
  class Constants {
    var attrs: map<string, Value>

    constructor ()
      ensures attrs == map["CAMPAIGN_BUYER_VALUE" := VStr(CampaignBuyerValue),
                           "is_campaign_buyer" := VObject("method", None, true)]
      ensures Protected()
    {
      attrs := map["CAMPAIGN_BUYER_VALUE" := VStr(CampaignBuyerValue),
                   "is_campaign_buyer" := VObject("method", None, true)];
    }

    /** The campaign marker is still `"Not set"`. */
    predicate Protected()
      reads this
    {
      "CAMPAIGN_BUYER_VALUE" in attrs && attrs["CAMPAIGN_BUYER_VALUE"] == VStr(CampaignBuyerValue)
    }

    /** `BusinessConstantsMeta.__setattr__(cls, name, value)`; `raised` is the exception, if any. */
    method SetAttr(name: string, value: Value) returns (raised: Option<PyError>)
      modifies this
      ensures (name in old(attrs) && IsUpper(name)) ==>
        (raised == Some(AttributeError("Cannot modify business constant '" + name + "'")) && attrs == old(attrs))
      ensures !(name in old(attrs) && IsUpper(name)) ==> (raised.None? && attrs == old(attrs)[name := value])
      ensures old(Protected()) ==> Protected()
    {
      if name in attrs && IsUpper(name) {
        return Some(AttributeError("Cannot modify business constant '" + name + "'"));
      }
      if name == "CAMPAIGN_BUYER_VALUE" {
        assert "CAMPAIGN_BUYER_VALUE"[0] == 'C';
      }
      attrs := attrs[name := value];
      return None;
    }
  }
}
