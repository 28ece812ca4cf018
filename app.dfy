/** The campaign-creation flow of main.py: the form's mapping helpers, and the three session fields
    that the "Generate Campaign", "Create Campaign on Meta" and "Create Another Campaign" buttons
    update. */
module App {
  import opened Wrappers
  import opened Values
  import opened MetaAds
  import opened LlmHandler

  // ---------------------------------------------------------------------------
  // Mapping helpers
  // ---------------------------------------------------------------------------

  /** The countries the form offers and their ISO 3166-1 alpha-2 codes. */
  const CountryIsoMapping: map<string, string> := map[
    "USA" := "US", "UK" := "GB", "India" := "IN", "Canada" := "CA", "Australia" := "AU",
    "Germany" := "DE", "France" := "FR", "Japan" := "JP", "Brazil" := "BR", "Mexico" := "MX",
    "Spain" := "ES", "Italy" := "IT"]

  predicate NoDuplicates(s: seq<string>) {
    forall i, j :: 0 <= i < j < |s| ==> s[i] != s[j]
  }

  /** `list(set(s))`, keeping first occurrences in order. */
  function Distinct(s: seq<string>): (r: seq<string>)
    ensures NoDuplicates(r)
    ensures forall x :: x in r <==> x in s
  {
    if s == [] then []
    else
      var init := Distinct(s[..|s| - 1]);
      assert s == s[..|s| - 1] + [s[|s| - 1]];
      if s[|s| - 1] in init then init else init + [s[|s| - 1]]
  }

  /** The selected country names mapped through the ISO table, without duplicates. */
  function CountryCodes(selection: seq<string>): (codes: seq<string>)
    requires forall i :: 0 <= i < |selection| ==> selection[i] in CountryIsoMapping
    ensures NoDuplicates(codes)
    ensures forall x :: x in codes <==>
      exists i :: 0 <= i < |selection| && CountryIsoMapping[selection[i]] == x
  {
    var image := seq(|selection|, i requires 0 <= i < |selection| => CountryIsoMapping[selection[i]]);
    forall x | x in image
      ensures exists i :: 0 <= i < |selection| && CountryIsoMapping[selection[i]] == x
    {
      var i :| 0 <= i < |image| && image[i] == x;
      assert CountryIsoMapping[selection[i]] == x;
    }
    forall x | exists i :: 0 <= i < |selection| && CountryIsoMapping[selection[i]] == x
      ensures x in image
    {
      var i :| 0 <= i < |selection| && CountryIsoMapping[selection[i]] == x;
      assert image[i] == x;
    }
    Distinct(image)
  }

  /** `target_genders[0] if target_genders else "ALL"`: only the first selected gender is used. */
  function SelectedGender(selection: seq<string>): (g: string)
    ensures g == "ALL" || g in selection
    ensures selection != [] ==> g == selection[0]
  {
    if selection != [] then selection[0] else "ALL"
  }

  /** The platform's gender codes: 1 for male, 2 for female, none (everyone) otherwise. */
  function GenderCodes(g: string): (codes: seq<Value>)
    ensures codes == [Int(1)] <==> g == "MALE"
    ensures codes == [Int(2)] <==> g == "FEMALE"
    ensures codes == [] <==> g != "MALE" && g != "FEMALE"
  {
    if g == "MALE" then [Int(1)] else if g == "FEMALE" then [Int(2)] else []
  }

  /** A list of strings as a JSON list. */
  function StrList(s: seq<string>): (v: Value)
    ensures v.List? && |v.items| == |s|
    ensures forall i :: 0 <= i < |s| ==> v.items[i] == Str(s[i])
  {
    List(seq(|s|, i requires 0 <= i < |s| => Str(s[i])))
  }

  // ---------------------------------------------------------------------------
  // The brief form and what the generate handler stores
  // ---------------------------------------------------------------------------

  /** What the brief form holds when it is submitted. */
  datatype BriefForm = BriefForm(
    businessName: string, businessDescription: string, campaignName: string, objective: string,
    ageMin: int, ageMax: int, genders: seq<string>, countries: seq<string>,
    productOrService: string, keySellingPoints: string, audienceDescription: string,
    callToAction: string, websiteUrl: string, dailyBudget: real)

  /** The multiselect offers only the countries of the ISO table. */
  predicate OfferedCountries(form: BriefForm) {
    forall i :: 0 <= i < |form.countries| ==> form.countries[i] in CountryIsoMapping
  }

  /** The required-field check: business name, product and selling points must all be non-empty. */
  predicate RequiredFieldsFilled(form: BriefForm) {
    form.businessName != "" && form.productOrService != "" && form.keySellingPoints != ""
  }

  /** Python's `str(n)` for an integer. */
  function IntToString(n: int): string
    decreases if n < 0 then 1 - n else n
  {
    if n < 0 then "-" + IntToString(-n)
    else if n < 10 then [DigitChar(n)]
    else IntToString(n / 10) + [DigitChar(n % 10)]
  }

  /** `str` on the form's default ages, and on a negative number. */
  lemma IntToStringExamples()
    ensures IntToString(25) + "-" + IntToString(45) == "25-45"
    ensures IntToString(-7) == "-7" && IntToString(0) == "0" && IntToString(100) == "100"
  {
    assert IntToString(2) == "2" && IntToString(5) == "5";
    assert IntToString(4) == "4";
    assert IntToString(10) == "10";
  }

  function DigitChar(d: int): char
    requires 0 <= d < 10
  {
    "0123456789"[d]
  }

  /** The brief handed to the content generator, from its field values. */
  function BriefOf(businessName: string, businessDescription: string, productOrService: string,
                   keySellingPoints: string, ageRange: string, gender: string, locations: Value,
                   audienceDescription: string, objective: string, callToAction: string): map<string, Value>
  {
    map[
      "business_name" := Str(businessName),
      "business_description" := Str(businessDescription),
      "product_or_service" := Str(productOrService),
      "key_selling_points" := Str(keySellingPoints),
      "target_audience" := Obj(map[
        "age_range" := Str(ageRange),
        "gender" := Str(gender),
        "locations" := locations,
        "description" := Str(audienceDescription)]),
      "campaign_objective" := Str(objective),
      "call_to_action" := Str(callToAction)]
  }

  /** The brief the form submits: the age range as "min-max", the first selected gender and the
      deduplicated country codes. */
  function CampaignBrief(form: BriefForm): map<string, Value>
    requires OfferedCountries(form)
  {
    BriefOf(form.businessName, form.businessDescription, form.productOrService, form.keySellingPoints,
            IntToString(form.ageMin) + "-" + IntToString(form.ageMax), SelectedGender(form.genders),
            StrList(CountryCodes(form.countries)), form.audienceDescription, form.objective, form.callToAction)
  }

  /** A brief built this way supplies every field the prompt reads, so no default applies. */
  lemma BriefOfPromptInputs(businessName: string, businessDescription: string, productOrService: string,
                            keySellingPoints: string, ageRange: string, gender: string, locations: Value,
                            audienceDescription: string, objective: string, callToAction: string)
    ensures CampaignPromptInputs(BriefOf(businessName, businessDescription, productOrService, keySellingPoints,
                                         ageRange, gender, locations, audienceDescription, objective,
                                         callToAction))
         == Success(PromptInputs(Str(businessName), Str(businessDescription), Str(productOrService),
                                 Str(keySellingPoints), Str(ageRange), Str(gender), locations,
                                 Str(audienceDescription), Str(objective), Str(callToAction)))
  {
    var brief := BriefOf(businessName, businessDescription, productOrService, keySellingPoints, ageRange, gender,
                         locations, audienceDescription, objective, callToAction);
    assert brief["target_audience"].Obj?;
    var audience := brief["target_audience"].fields;
    assert Get(brief, "business_name", Str("")) == Str(businessName);
    assert Get(brief, "business_description", Str("")) == Str(businessDescription);
    assert Get(brief, "product_or_service", Str("")) == Str(productOrService);
    assert Get(brief, "key_selling_points", Str("")) == Str(keySellingPoints);
    assert Get(brief, "campaign_objective", Str("CONSIDERATION")) == Str(objective);
    assert Get(brief, "call_to_action", Str("LEARN_MORE")) == Str(callToAction);
    assert Get(audience, "age_range", Str("25-45")) == Str(ageRange);
    assert Get(audience, "gender", Str("ALL")) == Str(gender);
    assert Get(audience, "locations", Str("United States")) == locations;
    assert Get(audience, "description", Str("")) == Str(audienceDescription);
  }

  /** The prompt is filled from the form itself: every field the brief supplies overrides its default,
      the age range reads "min-max", and the gender and countries are the ones the form selected. */
  lemma BriefReachesPrompt(form: BriefForm)
    requires OfferedCountries(form)
    ensures CampaignPromptInputs(CampaignBrief(form)) == Success(PromptInputs(
      Str(form.businessName), Str(form.businessDescription), Str(form.productOrService),
      Str(form.keySellingPoints), Str(IntToString(form.ageMin) + "-" + IntToString(form.ageMax)),
      Str(SelectedGender(form.genders)), StrList(CountryCodes(form.countries)),
      Str(form.audienceDescription), Str(form.objective), Str(form.callToAction)))
  {
    BriefOfPromptInputs(form.businessName, form.businessDescription, form.productOrService,
                        form.keySellingPoints, IntToString(form.ageMin) + "-" + IntToString(form.ageMax),
                        SelectedGender(form.genders), StrList(CountryCodes(form.countries)),
                        form.audienceDescription, form.objective, form.callToAction);
  }

  /** The `target_audience` entry of `campaign_details`. */
  datatype Audience = Audience(ageMin: int, ageMax: int, gender: string, locations: seq<string>)

  /** The ids recorded once a campaign is created. */
  datatype Ids = Ids(campaignId: string, adSetId: string, adId: string)

  /** A non-empty `campaign_details`: the entries the generate handler stores, and the ids the creation
      handler adds. */
  datatype Details = Details(campaignName: string, objective: string, dailyBudget: real, websiteUrl: string,
                             callToAction: string, audience: Audience, ids: Option<Ids>)

  /** `campaign_details` as the generate handler stores it. */
  function CampaignDetails(form: BriefForm): (d: Details)
    requires OfferedCountries(form)
    ensures d.campaignName == form.campaignName && d.objective == form.objective
    ensures d.dailyBudget == form.dailyBudget && d.websiteUrl == form.websiteUrl
    ensures d.callToAction == form.callToAction && d.ids.None?
    ensures d.audience.ageMin == form.ageMin && d.audience.ageMax == form.ageMax
    ensures d.audience.gender == "ALL" || d.audience.gender in form.genders
    ensures form.genders != [] ==> d.audience.gender == form.genders[0]
    ensures NoDuplicates(d.audience.locations)
    ensures forall x :: x in d.audience.locations <==>
      exists i :: 0 <= i < |form.countries| && CountryIsoMapping[form.countries[i]] == x
  {
    Details(form.campaignName, form.objective, form.dailyBudget, form.websiteUrl, form.callToAction,
            Audience(form.ageMin, form.ageMax, SelectedGender(form.genders), CountryCodes(form.countries)), None)
  }

  // ---------------------------------------------------------------------------
  // The creation handler as a run of platform writes
  // ---------------------------------------------------------------------------

  const ImagePlaceholderUrl := "https://placehold.co/600x400"

  /** How a press of "Create Campaign on Meta" ends. */
  datatype CreationOutcome =
    | MissingToken
    | MissingPageId
    | NoAdAccount
    | CreationFailed(error: ApiError)
    | CampaignLive(ids: Ids)

  /** The writes one press issues and how it ends. */
  datatype Creation = Creation(writes: seq<Write>, outcome: CreationOutcome)

  /** The targeting built inline for the ad set (the formatter is not used here). */
  function AdSetTargeting(audience: Audience): Value {
    Obj(map[
      "age_min" := Int(audience.ageMin),
      "age_max" := Int(audience.ageMax),
      "genders" := List(GenderCodes(audience.gender)),
      "geo_locations" := Obj(map["countries" := StrList(audience.locations)])])
  }

  /** The creative data built from the generated copy, the stored details and the sidebar's page id. */
  function CreativeData(content: Content, details: Details, pageId: string): map<string, string>
    requires HasRequiredFields(content)
  {
    map[
      "title" := content["headline"],
      "body" := content["primary_text"],
      "description" := content["description"],
      "image_url" := ImagePlaceholderUrl,
      "website_url" := details.websiteUrl,
      "call_to_action" := details.callToAction,
      "page_id" := pageId]
  }

  /** What the three create calls are given. */
  datatype Plan = Plan(name: string, objective: string, dailyBudget: real, targeting: Value,
                       creative: map<string, string>)

  function PlanOf(details: Details, content: Content, pageId: string): (plan: Plan)
    requires HasRequiredFields(content)
    ensures plan.name == details.campaignName && plan.objective == details.objective
    ensures plan.dailyBudget == details.dailyBudget && plan.targeting == AdSetTargeting(details.audience)
    ensures "page_id" in plan.creative && plan.creative["page_id"] == pageId
  {
    Plan(details.campaignName, details.objective, details.dailyBudget, AdSetTargeting(details.audience),
         CreativeData(content, details, pageId))
  }

  /** The creative posted for a campaign carries the generated copy: the headline names it and is its
      link name, the primary text is its message, the description is kept, and the link and call to
      action are the stored ones; the placeholder image URL leaves no trace. */
  lemma CreativeCarriesGeneratedCopy(details: Details, content: Content, pageId: string)
    requires HasRequiredFields(content) && pageId != ""
    ensures CreativeRequest(PlanOf(details, content, pageId).creative) == Success(CreativeBody(
      "Creative for " + content["headline"], pageId, content["primary_text"], details.websiteUrl,
      content["headline"], content["description"], details.callToAction, PlaceholderImageHash))
  {
    var data := CreativeData(content, details, pageId);
    assert "title" in data && "body" in data && "description" in data;
    assert "website_url" in data && "call_to_action" in data && "page_id" in data;
  }

  /** The body of the handler's `try` once the guards have passed, the platform having already received
      `n` writes: campaign, ad set and ad, each embedding the previous id, all paused. */
  function LaunchRun(respond: Responder, n: nat, accessToken: string, account: string, plan: Plan,
                     startTime: int): Creation
  {
    var campaign := Write(accessToken, account, CampaignRequest(plan.name, plan.objective, Paused));
    match Interpret(CampaignOp, respond(n, campaign))
    case Failure(e) => Creation([campaign], CreationFailed(e))
    case Success(campaignId) =>
      var adSet := Write(accessToken, account, AdSetRequest(plan.name + " - Ad Set", campaignId, plan.dailyBudget,
                                                            plan.targeting, Paused, startTime));
      match Interpret(AdSetOp, respond(n + 1, adSet))
      case Failure(e) => Creation([campaign, adSet], CreationFailed(e))
      case Success(adSetId) =>
        var ad := CreateAdRun(respond, n + 2, accessToken, account, plan.name + " - Ad", adSetId, plan.creative, Paused);
        match ad.result
        case Failure(e) => Creation([campaign, adSet] + ad.writes, CreationFailed(e))
        case Success(adId) => Creation([campaign, adSet] + ad.writes, CampaignLive(Ids(campaignId, adSetId, adId)))
  }

  /** One press of "Create Campaign on Meta": the token, page-id and ad-account guards, then the launch. */
  function CreationRun(respond: Responder, n: nat, accessToken: string, pageId: string,
                       adAccount: Option<string>, details: Details, content: Content, startTime: int): Creation
    requires HasRequiredFields(content)
  {
    if accessToken == "" then Creation([], MissingToken)
    else if pageId == "" then Creation([], MissingPageId)
    else if adAccount.None? || adAccount.value == "" then Creation([], NoAdAccount)
    else LaunchRun(respond, n, accessToken, adAccount.value, PlanOf(details, content, pageId), startTime)
  }

  /** The position of each kind of write in the fixed order campaign, ad set, creative, ad. */
  function StepIndex(body: Body): nat {
    match body
    case CampaignBody(_, _, _, _) => 0
    case AdSetBody(_, _, _, _, _, _, _, _, _, _) => 1
    case CreativeBody(_, _, _, _, _, _, _, _) => 2
    case AdBody(_, _, _, _) => 3
  }

  /** A body that carries a status carries "PAUSED". */
  predicate PausedOrStatusless(body: Body) {
    body.CreativeBody? || body.status == Paused
  }

  /** The launch writes strictly in the order campaign, ad set, creative, ad. */
  lemma LaunchOrder(respond: Responder, n: nat, accessToken: string, account: string, plan: Plan, startTime: int)
    ensures var w := LaunchRun(respond, n, accessToken, account, plan, startTime).writes;
      && 1 <= |w| <= 4
      && (forall i :: 0 <= i < |w| ==> StepIndex(w[i].body) == i)
  {
    var run := LaunchRun(respond, n, accessToken, account, plan, startTime);
    var campaign := Write(accessToken, account, CampaignRequest(plan.name, plan.objective, Paused));
    if !respond(n, campaign).Created? {
      assert run.writes == [campaign];
    } else {
      var adSet := Write(accessToken, account, AdSetRequest(plan.name + " - Ad Set", respond(n, campaign).id,
                                                            plan.dailyBudget, plan.targeting, Paused, startTime));
      if !respond(n + 1, adSet).Created? {
        assert run.writes == [campaign, adSet];
      } else {
        var ad := CreateAdRun(respond, n + 2, accessToken, account, plan.name + " - Ad", respond(n + 1, adSet).id,
                              plan.creative, Paused);
        CreateAdSequence(respond, n + 2, accessToken, account, plan.name + " - Ad", respond(n + 1, adSet).id,
                         plan.creative, Paused);
        assert run.writes == [campaign, adSet] + ad.writes;
      }
    }
  }

  /** Each write of the launch is issued only after the one before it was answered with an id. */
  lemma LaunchWaitsForIds(respond: Responder, n: nat, accessToken: string, account: string, plan: Plan,
                          startTime: int)
    ensures var w := LaunchRun(respond, n, accessToken, account, plan, startTime).writes;
      forall i :: 0 <= i < |w| - 1 ==> respond(n + i, w[i]).Created?
  {
    var run := LaunchRun(respond, n, accessToken, account, plan, startTime);
    var campaign := Write(accessToken, account, CampaignRequest(plan.name, plan.objective, Paused));
    if !respond(n, campaign).Created? {
      assert run.writes == [campaign];
    } else {
      var adSet := Write(accessToken, account, AdSetRequest(plan.name + " - Ad Set", respond(n, campaign).id,
                                                            plan.dailyBudget, plan.targeting, Paused, startTime));
      if !respond(n + 1, adSet).Created? {
        assert run.writes == [campaign, adSet];
      } else {
        var ad := CreateAdRun(respond, n + 2, accessToken, account, plan.name + " - Ad", respond(n + 1, adSet).id,
                              plan.creative, Paused);
        CreateAdSequence(respond, n + 2, accessToken, account, plan.name + " - Ad", respond(n + 1, adSet).id,
                         plan.creative, Paused);
        assert run.writes == [campaign, adSet] + ad.writes;
      }
    }
  }

  /** Every write of the launch goes to the one account with the one token, and every status it sets is
      "PAUSED". */
  lemma LaunchPausedOnOneAccount(respond: Responder, n: nat, accessToken: string, account: string, plan: Plan,
                                 startTime: int)
    ensures var w := LaunchRun(respond, n, accessToken, account, plan, startTime).writes;
      && (forall i :: 0 <= i < |w| ==> PausedOrStatusless(w[i].body))
      && (forall i :: 0 <= i < |w| ==> w[i].accessToken == accessToken && w[i].adAccountId == account)
  {
    var campaign := Write(accessToken, account, CampaignRequest(plan.name, plan.objective, Paused));
    if respond(n, campaign).Created? {
      var adSetId := respond(n + 1, Write(accessToken, account, AdSetRequest(plan.name + " - Ad Set",
                       respond(n, campaign).id, plan.dailyBudget, plan.targeting, Paused, startTime)));
      if adSetId.Created? {
        CreateAdSequence(respond, n + 2, accessToken, account, plan.name + " - Ad", adSetId.id, plan.creative, Paused);
      }
    }
  }

  /** The ad set embeds the campaign's id and the ad embeds the ad set's and the creative's. The launch
      ends live exactly when all four writes were answered with an id, and reports those ids; otherwise
      it ends in a failure. */
  lemma LaunchThreadsIds(respond: Responder, n: nat, accessToken: string, account: string, plan: Plan,
                         startTime: int)
    ensures var run := LaunchRun(respond, n, accessToken, account, plan, startTime);
      var w := run.writes;
      && (|w| >= 2 ==> w[1].body.AdSetBody? && w[1].body.campaignId == respond(n, w[0]).id)
      && (|w| == 4 ==> w[3].body.AdBody? && w[3].body.adSetId == respond(n + 1, w[1]).id
                       && w[3].body.creativeId == respond(n + 2, w[2]).id)
      && (run.outcome.CampaignLive? <==> |w| == 4 && respond(n + 3, w[3]).Created?)
      && (run.outcome.CampaignLive? ==>
            run.outcome.ids == Ids(respond(n, w[0]).id, respond(n + 1, w[1]).id, respond(n + 3, w[3]).id))
      && (!run.outcome.CampaignLive? ==> run.outcome.CreationFailed?)
  {
    var campaign := Write(accessToken, account, CampaignRequest(plan.name, plan.objective, Paused));
    if respond(n, campaign).Created? {
      var adSetId := respond(n + 1, Write(accessToken, account, AdSetRequest(plan.name + " - Ad Set",
                       respond(n, campaign).id, plan.dailyBudget, plan.targeting, Paused, startTime)));
      if adSetId.Created? {
        CreateAdSequence(respond, n + 2, accessToken, account, plan.name + " - Ad", adSetId.id, plan.creative, Paused);
      }
    }
  }

  /** With a page id in the creative data, the local page-id check of the creative never fires: the
      launch fails only when the platform does not answer its last write with an id. */
  lemma LaunchFailuresComeFromPlatform(respond: Responder, n: nat, accessToken: string, account: string,
                                       plan: Plan, startTime: int)
    requires "page_id" in plan.creative && plan.creative["page_id"] != ""
    ensures var run := LaunchRun(respond, n, accessToken, account, plan, startTime);
      run.outcome.CreationFailed? ==>
        var last := run.writes[|run.writes| - 1];
        && !run.outcome.error.Invalid? && !respond(n + |run.writes| - 1, last).Created?
        && run.outcome == CreationFailed(Interpret(OpOf(last.body), respond(n + |run.writes| - 1, last)).error)
  {
    LaunchOrder(respond, n, accessToken, account, plan, startTime);
    var campaign := Write(accessToken, account, CampaignRequest(plan.name, plan.objective, Paused));
    if respond(n, campaign).Created? {
      var adSetId := respond(n + 1, Write(accessToken, account, AdSetRequest(plan.name + " - Ad Set",
                       respond(n, campaign).id, plan.dailyBudget, plan.targeting, Paused, startTime)));
      if adSetId.Created? {
        CreateAdSequence(respond, n + 2, accessToken, account, plan.name + " - Ad", adSetId.id, plan.creative, Paused);
      }
    }
  }

  /** A refused ad set halts the launch with the platform's own message, and neither a creative nor an
      ad is ever requested. */
  lemma RefusedAdSetHalts(respond: Responder, n: nat, accessToken: string, account: string, plan: Plan,
                          startTime: int, userMessage: string, detail: string)
    requires var run := LaunchRun(respond, n, accessToken, account, plan, startTime);
      |run.writes| >= 2 && respond(n + 1, run.writes[1]) == Refused(Some(userMessage), detail)
    ensures var run := LaunchRun(respond, n, accessToken, account, plan, startTime);
      && |run.writes| == 2
      && run.outcome == CreationFailed(Rejected(FailureMessage(AdSetOp, Some(userMessage), detail)))
      && Text.Contains(run.outcome.error.message, userMessage)
  {
    FailureMessageShowsPlatformText(AdSetOp, userMessage, detail);
  }

  /** Nothing is written when the token or the page id is empty, or when no ad account is found, and
      the guards are checked in that order. */
  lemma CreationGuards(respond: Responder, n: nat, accessToken: string, pageId: string,
                       adAccount: Option<string>, details: Details, content: Content, startTime: int)
    requires HasRequiredFields(content)
    ensures var run := CreationRun(respond, n, accessToken, pageId, adAccount, details, content, startTime);
      && (accessToken == "" ==> run == Creation([], MissingToken))
      && (accessToken != "" && pageId == "" ==> run == Creation([], MissingPageId))
      && (accessToken != "" && pageId != "" && (adAccount.None? || adAccount.value == "") ==>
            run == Creation([], NoAdAccount))
      && (run.writes == [] <==> accessToken == "" || pageId == "" || adAccount.None? || adAccount.value == "")
  {
    if accessToken != "" && pageId != "" && adAccount.Some? && adAccount.value != "" {
      LaunchOrder(respond, n, accessToken, adAccount.value, PlanOf(details, content, pageId), startTime);
    }
  }

  /** The launch first posts the plan's campaign, then the ad set named after it, embedding the campaign's
      id and carrying the plan's budget and targeting. */
  lemma LaunchPostsCampaignThenAdSet(respond: Responder, n: nat, accessToken: string, account: string, plan: Plan,
                                     startTime: int)
    ensures var w := LaunchRun(respond, n, accessToken, account, plan, startTime).writes;
      && w != [] && w[0].body == CampaignRequest(plan.name, plan.objective, Paused)
      && (|w| >= 2 ==> w[1].body == AdSetRequest(plan.name + " - Ad Set", respond(n, w[0]).id, plan.dailyBudget,
                                                 plan.targeting, Paused, startTime))
  {
    var run := LaunchRun(respond, n, accessToken, account, plan, startTime);
    var campaign := Write(accessToken, account, CampaignRequest(plan.name, plan.objective, Paused));
    assert run.writes[0] == campaign;
    if |run.writes| >= 2 {
      var adSet := Write(accessToken, account, AdSetRequest(plan.name + " - Ad Set", respond(n, campaign).id,
                                                            plan.dailyBudget, plan.targeting, Paused, startTime));
      assert run.writes[1] == adSet;
    }
  }

  /** Past the guards, the campaign is named and aimed as stored, and the ad set is named after it and
      carries the inline targeting built from the stored audience. */
  lemma CreationUsesStoredDetails(respond: Responder, n: nat, accessToken: string, pageId: string,
                                  adAccount: Option<string>, details: Details, content: Content, startTime: int)
    requires HasRequiredFields(content)
    ensures var w := CreationRun(respond, n, accessToken, pageId, adAccount, details, content, startTime).writes;
      && (w != [] ==> w[0].body == CampaignRequest(details.campaignName, details.objective, Paused))
      && (|w| >= 2 ==> w[1].body == AdSetRequest(details.campaignName + " - Ad Set", respond(n, w[0]).id,
                                                 details.dailyBudget, AdSetTargeting(details.audience), Paused, startTime))
  {
    if accessToken != "" && pageId != "" && adAccount.Some? && adAccount.value != "" {
      LaunchPostsCampaignThenAdSet(respond, n, accessToken, adAccount.value, PlanOf(details, content, pageId),
                                   startTime);
    }
  }

  /** Past the ad set, the launch posts the plan's creative, then the ad named after the campaign that
      embeds the ad set's and the creative's ids. */
  lemma LaunchPostsCreativeThenAd(respond: Responder, n: nat, accessToken: string, account: string, plan: Plan,
                                  startTime: int)
    ensures var w := LaunchRun(respond, n, accessToken, account, plan, startTime).writes;
      && (|w| >= 3 ==> CreativeRequest(plan.creative).Success? && w[2].body == CreativeRequest(plan.creative).value)
      && (|w| == 4 ==> && w[3].body.AdBody? && w[3].body.name == plan.name + " - Ad" && w[3].body.status == Paused
                        && respond(n + 1, w[1]) == Created(w[3].body.adSetId)
                        && respond(n + 2, w[2]) == Created(w[3].body.creativeId))
  {
    var run := LaunchRun(respond, n, accessToken, account, plan, startTime);
    if |run.writes| >= 3 {
      var adSetId := respond(n + 1, run.writes[1]).id;
      var ad := CreateAdRun(respond, n + 2, accessToken, account, plan.name + " - Ad", adSetId, plan.creative, Paused);
      assert run.writes == run.writes[..2] + ad.writes;
      assert ad.writes[0] == run.writes[2];
    }
  }

  /** Past the ad set, the creative posted carries the generated copy, and the ad is named after the
      campaign and embeds the ad set's and the creative's ids. */
  lemma CreationPostsGeneratedCopy(respond: Responder, n: nat, accessToken: string, pageId: string,
                                   adAccount: Option<string>, details: Details, content: Content, startTime: int)
    requires HasRequiredFields(content)
    ensures var w := CreationRun(respond, n, accessToken, pageId, adAccount, details, content, startTime).writes;
      && (|w| >= 3 ==> w[2].body == CreativeBody(
            "Creative for " + content["headline"], pageId, content["primary_text"], details.websiteUrl,
            content["headline"], content["description"], details.callToAction, PlaceholderImageHash))
      && (|w| == 4 ==> && w[3].body.AdBody? && w[3].body.name == details.campaignName + " - Ad"
                        && w[3].body.status == Paused
                        && respond(n + 1, w[1]) == Created(w[3].body.adSetId)
                        && respond(n + 2, w[2]) == Created(w[3].body.creativeId))
  {
    if accessToken != "" && pageId != "" && adAccount.Some? && adAccount.value != "" {
      LaunchPostsCreativeThenAd(respond, n, accessToken, adAccount.value, PlanOf(details, content, pageId), startTime);
      CreativeCarriesGeneratedCopy(details, content, pageId);
    }
  }

  /** The targeting the ad set is created with, traced back to the form: the ages as entered, gender
      code 1 or 2 only when the first selected gender is male or female, and the mapped countries. */
  lemma FormTargeting(form: BriefForm)
    requires OfferedCountries(form)
    ensures var t := AdSetTargeting(CampaignDetails(form).audience).fields;
      && t.Keys == {"age_min", "age_max", "genders", "geo_locations"}
      && t["age_min"] == Int(form.ageMin) && t["age_max"] == Int(form.ageMax)
      && (t["genders"] == List([Int(1)]) <==> form.genders != [] && form.genders[0] == "MALE")
      && (t["genders"] == List([Int(2)]) <==> form.genders != [] && form.genders[0] == "FEMALE")
      && (t["genders"] == List([]) <==>
            form.genders == [] || (form.genders[0] != "MALE" && form.genders[0] != "FEMALE"))
      && t["geo_locations"] == Obj(map["countries" := StrList(CountryCodes(form.countries))])
  {
  }

  /** The handler's `try` body, once the guards have passed. */
  method Launch(p: Platform, accessToken: string, account: string, plan: Plan, startTime: int)
    returns (outcome: CreationOutcome)
    modifies p
    ensures var run := LaunchRun(p.respond, |old(p.writes)|, accessToken, account, plan, startTime);
      p.writes == old(p.writes) + run.writes && outcome == run.outcome
  {
    ghost var start := p.writes;
    ghost var run := LaunchRun(p.respond, |start|, accessToken, account, plan, startTime);
    var campaignId := CreateCampaign(p, accessToken, account, plan.name, plan.objective, Paused);
    ghost var campaign := p.writes[|start|];
    if campaignId.Failure? {
      assert run == Creation([campaign], CreationFailed(campaignId.error));
      return CreationFailed(campaignId.error);
    }
    var adSetId := CreateAdSet(p, accessToken, account, plan.name + " - Ad Set", campaignId.value,
                               plan.dailyBudget, plan.targeting, Paused, startTime);
    ghost var adSet := p.writes[|start| + 1];
    assert p.writes == start + [campaign, adSet];
    if adSetId.Failure? {
      assert run == Creation([campaign, adSet], CreationFailed(adSetId.error));
      return CreationFailed(adSetId.error);
    }
    ghost var ad := CreateAdRun(p.respond, |start| + 2, accessToken, account, plan.name + " - Ad", adSetId.value,
                                plan.creative, Paused);
    assert run.writes == [campaign, adSet] + ad.writes;
    var adId := CreateAd(p, accessToken, account, plan.name + " - Ad", adSetId.value, plan.creative, Paused);
    assert adId == ad.result;
    if adId.Failure? {
      assert run.outcome == CreationFailed(adId.error);
      return CreationFailed(adId.error);
    }
    assert run.outcome == CampaignLive(Ids(campaignId.value, adSetId.value, adId.value));
    outcome := CampaignLive(Ids(campaignId.value, adSetId.value, adId.value));
  }

  /** The creation handler's calls: the token, page-id and ad-account guards, then the launch. */
  method Create(p: Platform, accessToken: string, pageId: string, accounts: AccountsReply, details: Details,
                content: Content, startTime: int) returns (outcome: CreationOutcome)
    requires HasRequiredFields(content)
    modifies p
    ensures var run := CreationRun(p.respond, |old(p.writes)|, accessToken, pageId, GetAdAccountId(accounts),
                                   details, content, startTime);
      p.writes == old(p.writes) + run.writes && outcome == run.outcome
  {
    if accessToken == "" {
      return MissingToken;
    }
    if pageId == "" {
      return MissingPageId;
    }
    var adAccount := GetAdAccountId(accounts);
    if adAccount.None? || adAccount.value == "" {
      return NoAdAccount;
    }
    outcome := Launch(p, accessToken, adAccount.value, PlanOf(details, content, pageId), startTime);
  }

  // ---------------------------------------------------------------------------
  // The session
  // ---------------------------------------------------------------------------

  /** Why a press of "Generate Campaign" stores nothing. */
  datatype SubmitFailure = MissingRequiredFields | GenerationFailed(error: GenerationError)

  /** A press of "Generate Campaign": the required-field check, then content generation on the brief. */
  function Submission(form: BriefForm, apiKey: Option<string>, complete: Completion, parse: Parser)
    : (r: Result<Content, SubmitFailure>)
    requires OfferedCountries(form)
    ensures r == Failure(MissingRequiredFields) <==> !RequiredFieldsFilled(form)
    ensures r.Success? ==> HasRequiredFields(r.value)
    ensures RequiredFieldsFilled(form) && (apiKey.None? || apiKey.value == "") ==>
      r == Failure(GenerationFailed(MissingApiKey))
    ensures RequiredFieldsFilled(form) ==>
      var generated := GenerateCampaignContent(CampaignBrief(form), apiKey, complete, parse);
      && (r.Success? <==> generated.Success?)
      && (generated.Success? ==> r.value == generated.value)
      && (generated.Failure? ==> r.error == GenerationFailed(generated.error))
  {
    if !RequiredFieldsFilled(form) then Failure(MissingRequiredFields)
    else
      match GenerateCampaignContent(CampaignBrief(form), apiKey, complete, parse)
      case Failure(e) => Failure(GenerationFailed(e))
      case Success(content) => Success(content)
  }

  /** `st.session_state`: the three fields the buttons read and write. An empty `campaign_details` is
      `None`. */
  class Session {
    var campaignCreated: bool
    var campaignDetails: Option<Details>
    var generatedContent: Content

    /** Whenever content is shown, it is complete and the details the creation handler reads are there.
        (A created campaign does not imply the ids are stored: submitting the brief again replaces the
        details and keeps `campaignCreated`.) */
    ghost predicate Valid()
      reads this
    {
      generatedContent != map[] ==> HasRequiredFields(generatedContent) && campaignDetails.Some?
    }

    /** The session starts with nothing created and nothing generated. */
    constructor ()
      ensures Valid()
      ensures !campaignCreated && campaignDetails == None && generatedContent == map[]
    {
      campaignCreated := false;
      campaignDetails := None;
      generatedContent := map[];
    }

    /** "Generate Campaign": on success the session gets the new content and fresh details; otherwise
        nothing changes. */
    method SubmitBrief(form: BriefForm, apiKey: Option<string>, complete: Completion, parse: Parser)
      returns (outcome: Outcome<SubmitFailure>)
      requires Valid() && OfferedCountries(form)
      modifies this
      ensures Valid()
      ensures var r := Submission(form, apiKey, complete, parse);
        && (outcome.Pass? <==> r.Success?)
        && (r.Failure? ==> outcome == Fail(r.error)
                           && generatedContent == old(generatedContent) && campaignDetails == old(campaignDetails))
        && (r.Success? ==> generatedContent == r.value && campaignDetails == Some(CampaignDetails(form)))
      ensures campaignCreated == old(campaignCreated)
    {
      outcome := Store(Submission(form, apiKey, complete, parse), CampaignDetails(form));
    }

    /** The session update after generation: content and details are stored only on success. */
    method Store(r: Result<Content, SubmitFailure>, details: Details) returns (outcome: Outcome<SubmitFailure>)
      requires Valid() && (r.Success? ==> HasRequiredFields(r.value))
      modifies this
      ensures Valid()
      ensures outcome.Pass? <==> r.Success?
      ensures r.Failure? ==> outcome == Fail(r.error)
                             && generatedContent == old(generatedContent) && campaignDetails == old(campaignDetails)
      ensures r.Success? ==> generatedContent == r.value && campaignDetails == Some(details)
      ensures campaignCreated == old(campaignCreated)
    {
      if r.Failure? {
        return Fail(r.error);
      }
      generatedContent := r.value;
      campaignDetails := Some(details);
      outcome := Pass;
    }

    /** "Create Campaign on Meta", offered only while content is shown and no campaign is created:
        the guards, then the three create calls; the session commits only after all of them return. */
    method CreateOnMeta(p: Platform, accessToken: string, pageId: string, accounts: AccountsReply,
                        startTime: int) returns (outcome: CreationOutcome)
      requires Valid() && generatedContent != map[] && !campaignCreated
      modifies this, p
      ensures Valid()
      ensures var run := CreationRun(p.respond, |old(p.writes)|, accessToken, pageId, GetAdAccountId(accounts),
                                     old(campaignDetails).value, old(generatedContent), startTime);
        p.writes == old(p.writes) + run.writes && outcome == run.outcome
      ensures campaignCreated <==> outcome.CampaignLive?
      ensures generatedContent == old(generatedContent)
      ensures campaignDetails ==
        if outcome.CampaignLive? then Some(old(campaignDetails).value.(ids := Some(outcome.ids)))
        else old(campaignDetails)
    {
      outcome := Create(p, accessToken, pageId, accounts, campaignDetails.value, generatedContent, startTime);
      Commit(outcome);
    }

    /** The session update after creation: a live campaign is marked created and its ids are recorded;
        any other outcome changes nothing. */
    method Commit(outcome: CreationOutcome)
      requires Valid() && campaignDetails.Some?
      modifies this
      ensures Valid()
      ensures campaignCreated == (outcome.CampaignLive? || old(campaignCreated))
      ensures generatedContent == old(generatedContent)
      ensures campaignDetails ==
        if outcome.CampaignLive? then Some(old(campaignDetails).value.(ids := Some(outcome.ids)))
        else old(campaignDetails)
    {
      if outcome.CampaignLive? {
        campaignCreated := true;
        campaignDetails := Some(campaignDetails.value.(ids := Some(outcome.ids)));
      }
    }

    /** "Create Another Campaign", offered once a campaign is created: everything is cleared. */
    method Reset()
      requires campaignCreated
      modifies this
      ensures Valid()
      ensures !campaignCreated && campaignDetails == None && generatedContent == map[]
    {
      campaignCreated := false;
      campaignDetails := None;
      generatedContent := map[];
    }
  }
}
