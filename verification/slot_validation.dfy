/** The form validators: each takes the value the dialogue engine filled a
    slot with and returns the value to store (`None` clears the slot), plus
    the message the validator sends, if any. */
module SlotValidation {
  import opened Outcomes
  import opened Text
  import opened QueryBuilder

  /** A message sent back to the user: a domain response template or text. */
  datatype Utterance = Template(name: string) | Say(text: string)

  /** The slot's new value and the message sent while validating it. */
  datatype Checked = Checked(slot: Option<string>, message: Option<Utterance>)

  const AskEmail := Template("utter_ask_email")
  const TrackingOrderIdHint := "Please provide a valid order ID (at least 3 characters)."
  const ComplaintOrderIdHint := "Please provide a valid order ID."
  const EmailHint := "Please provide a valid email address."
  const DescriptionHint := "Please provide more details about your complaint (at least 10 characters)."
  const SearchQueryHint := "Please provide a search term (at least 2 characters)."

  /** The value every recommendation-form validator falls back to. */
  const NoPreference := "any"

  /** `validate_order_id` of both the order-tracking and the complaint form
      (they differ only in the hint): at least three characters. */
  function ValidateOrderId(v: Option<string>, hint: string): (r: Checked)
    ensures r.slot.Some? <==> v.Some? && |v.value| >= 3
    ensures r.slot.Some? ==> r.slot == v && r.message == Some(AskEmail)
    ensures r.slot.None? ==> r.message == Some(Say(hint))
  {
    if Present(v) && |v.value| >= 3 then Checked(v, Some(AskEmail))
    else Checked(None, Some(Say(hint)))
  }

  /** `validate_user_email`: non-empty and containing both `@` and `.`. */
  function ValidateEmail(v: Option<string>): (r: Checked)
    ensures r.slot.Some? <==> v.Some? && '@' in v.value && '.' in v.value
    ensures r.slot.Some? ==> r.slot == v && r.message.None?
    ensures r.slot.None? ==> r.message == Some(Say(EmailHint))
  {
    if Present(v) && '@' in v.value && '.' in v.value then Checked(v, None)
    else Checked(None, Some(Say(EmailHint)))
  }

  /** `valid_brands` of `validate_preferred_brand`. */
  const KnownBrands: seq<string> := ["sony", "apple", "bose", "sennheiser", "jbl",
    "audio-technica", "samsung", "beats", "anker", "jabra", "any", "no preference"]

  predicate BrandAccepted(s: string) {
    Lower(s) in KnownBrands || Contains(Lower(s), "any") || Contains(Lower(s), "no")
  }

  /** `validate_preferred_brand`: the value is kept when its lower-case form
      is a known brand or contains "any" or "no"; otherwise "any". */
  function ValidateBrand(v: Option<string>): (r: string)
    ensures Present(v) && BrandAccepted(v.value) ==> r == v.value
    ensures !(Present(v) && BrandAccepted(v.value)) ==> r == NoPreference
  {
    if Present(v) && BrandAccepted(v.value) then v.value else NoPreference
  }

  /** `price_keywords` of `validate_price_range`. */
  const PriceKeywords: seq<string> := ["under", "$", "budget", "cheap", "expensive", "premium", "-"]

  /** `any(keyword in s.lower() for keyword in keywords)`. */
  predicate MentionsAny(s: string, keywords: seq<string>) {
    exists k :: 0 <= k < |keywords| && Contains(Lower(s), keywords[k])
  }

  /** `validate_price_range`: kept when it mentions a price keyword, else "any". */
  function ValidatePriceRange(v: Option<string>): (r: string)
    ensures Present(v) && MentionsAny(v.value, PriceKeywords) ==> r == v.value
    ensures !(Present(v) && MentionsAny(v.value, PriceKeywords)) ==> r == NoPreference
  {
    if Present(v) && MentionsAny(v.value, PriceKeywords) then v.value else NoPreference
  }

  /** `valid_types` of `validate_product_type`. */
  const ProductTypes: seq<string> := ["over-ear", "in-ear", "on-ear", "any"]

  /** `validate_product_type`: kept when it mentions an ear style or "any". */
  function ValidateProductType(v: Option<string>): (r: string)
    ensures Present(v) && MentionsAny(v.value, ProductTypes) ==> r == v.value
    ensures !(Present(v) && MentionsAny(v.value, ProductTypes)) ==> r == NoPreference
  {
    if Present(v) && MentionsAny(v.value, ProductTypes) then v.value else NoPreference
  }

  /** `validate_features`: any non-empty value is kept. */
  function ValidateFeatures(v: Option<string>): (r: string)
    ensures Present(v) ==> r == v.value
    ensures !Present(v) ==> r == NoPreference
  {
    if Present(v) then v.value else NoPreference
  }

  /** `valid_topics` of `validate_complaint_topic`. */
  const Topics: seq<string> := ["product quality", "shipping", "customer service",
    "billing", "returns", "technical issue"]

  /** `validate_complaint_topic`. The topic list is consulted, but both
      branches return the value itself: any non-empty value is kept. */
  function ValidateTopic(v: Option<string>): (r: Option<string>)
    ensures Present(v) ==> r == v
    ensures !Present(v) ==> r.None?
  {
    if Present(v) then
      if MentionsAny(v.value, Topics) then v else v
    else None
  }

  /** `validate_complaint_description`: at least ten characters. */
  function ValidateDescription(v: Option<string>): (r: Checked)
    ensures r.slot.Some? <==> v.Some? && |v.value| >= 10
    ensures r.slot.Some? ==> r.slot == v && r.message.None?
    ensures r.slot.None? ==> r.message == Some(Say(DescriptionHint))
  {
    if Present(v) && |v.value| >= 10 then Checked(v, None)
    else Checked(None, Some(Say(DescriptionHint)))
  }

  /** `validate_search_query`: at least two characters. */
  function ValidateSearchQuery(v: Option<string>): (r: Checked)
    ensures r.slot.Some? <==> v.Some? && |v.value| >= 2
    ensures r.slot.Some? ==> r.slot == v && r.message.None?
    ensures r.slot.None? ==> r.message == Some(Say(SearchQueryHint))
  {
    if Present(v) && |v.value| >= 2 then Checked(v, None)
    else Checked(None, Some(Say(SearchQueryHint)))
  }

  // ---------------------------------------------------------------------
  // Properties
  // ---------------------------------------------------------------------

  /** The length-checking validators are fixed points on what they accept:
      validating the stored value again keeps it. */
  lemma LengthValidatorsStable(v: Option<string>, hint: string)
    ensures ValidateOrderId(ValidateOrderId(v, hint).slot, hint).slot == ValidateOrderId(v, hint).slot
    ensures ValidateEmail(ValidateEmail(v).slot).slot == ValidateEmail(v).slot
    ensures ValidateDescription(ValidateDescription(v).slot).slot == ValidateDescription(v).slot
    ensures ValidateSearchQuery(ValidateSearchQuery(v).slot).slot == ValidateSearchQuery(v).slot
  {
  }

  /** The fallback "any" is itself accepted by every recommendation-form
      validator that uses it, so validating the stored value again keeps it. */
  lemma PreferenceValidatorsStable(v: Option<string>)
    ensures ValidateBrand(Some(ValidateBrand(v))) == ValidateBrand(v)
    ensures ValidateProductType(Some(ValidateProductType(v))) == ValidateProductType(v)
    ensures ValidateFeatures(Some(ValidateFeatures(v))) == ValidateFeatures(v)
  {
    assert Lower(NoPreference) == "any";
    assert KnownBrands[10] == "any";
    assert Contains(Lower(NoPreference), ProductTypes[3]) by {
      assert StartsWith("any", "any");
    }
  }

  /** The price fallback "any" mentions no price keyword, so it also stays. */
  lemma PriceValidatorStable(v: Option<string>)
    ensures ValidatePriceRange(Some(ValidatePriceRange(v))) == ValidatePriceRange(v)
  {
    FallbackMentionsNoPrice();
  }

  lemma FallbackMentionsNoPrice()
    ensures !MentionsAny(NoPreference, PriceKeywords)
  {
    var s := Lower(NoPreference);
    assert s == "any";
    forall k | 0 <= k < |PriceKeywords| ensures !Contains(s, PriceKeywords[k]) {
      ContainsAt(s, PriceKeywords[k]);
      ContainsChar(s, '$');
      ContainsChar(s, '-');
      assert PriceKeywords[1] == "$" && PriceKeywords[6] == "-";
    }
  }

  /** What a rejected preference means downstream: the fallback imposes no
      brand, type or feature filter and no price rule. */
  lemma FallbackImposesNothing(parse: string -> Option<real>)
    ensures BrandPart(Some(NoPreference)) == Empty
    ensures TypePart(Some(NoPreference)) == Empty
    ensures FeaturePart(Some(NoPreference)) == Empty
    ensures ClassifyPrice(Some(NoPreference), parse) == Ok(NoRule)
  {
    assert Lower(NoPreference) == "any";
    var s := Lower(NoPreference);
    ContainsAt(s, "under");
    ContainsAt(NoPreference, "-");
    ContainsChar(NoPreference, '-');
    ContainsAt(s, "over");
  }
}
