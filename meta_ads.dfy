/** Request construction and call sequencing of the Meta Graph API client in ads_api/meta_ads.py.
    The platform is an oracle: every write either returns a new id or fails; the model records which
    writes are issued, in what order, and what the client makes of each reply. */
module MetaAds {
  import opened Wrappers
  import opened Values
  import Text

  // ---------------------------------------------------------------------------
  // Fixed settings
  // ---------------------------------------------------------------------------

  const Paused := "PAUSED"
  /** The ad-set run window: 30 days, in seconds. */
  const RunWindowSeconds := 30 * 24 * 60 * 60
  /** Every creative reuses this stock image hash; image upload is not implemented. */
  const PlaceholderImageHash := "4098e58bb25e54ff17283d7bf4f44fd6"
  const PageIdRequired := "Facebook Page ID is required to create an ad creative"

  /** The high-level objectives the form offers, mapped to the platform's vocabulary. */
  const ObjectiveMapping: map<string, string> :=
    map["AWARENESS" := "BRAND_AWARENESS", "CONSIDERATION" := "OUTCOME_TRAFFIC", "CONVERSIONS" := "CONVERSIONS"]

  /** `objective_mapping.get(objective, "OUTCOME_TRAFFIC")`. */
  function MetaObjective(objective: string): (meta: string)
    ensures meta == "BRAND_AWARENESS" <==> objective == "AWARENESS"
    ensures meta == "CONVERSIONS" <==> objective == "CONVERSIONS"
    ensures meta == "OUTCOME_TRAFFIC" <==> objective != "AWARENESS" && objective != "CONVERSIONS"
  {
    if objective in ObjectiveMapping then ObjectiveMapping[objective] else "OUTCOME_TRAFFIC"
  }

  /** `int(daily_budget * 100)`: major units to minor units, truncated toward zero. */
  function BudgetInMinorUnits(dailyBudget: real): (minor: int)
    ensures 0.0 <= dailyBudget ==> 0 <= minor && minor as real <= dailyBudget * 100.0 < minor as real + 1.0
    ensures dailyBudget < 0.0 ==> minor <= 0 && minor as real - 1.0 < dailyBudget * 100.0 <= minor as real
  {
    var scaled := dailyBudget * 100.0;
    if scaled >= 0.0 then scaled.Floor else -((-scaled).Floor)
  }

  // ---------------------------------------------------------------------------
  // Request bodies
  // ---------------------------------------------------------------------------

  /** The JSON body of each of the four writes. */
  datatype Body =
    | CampaignBody(name: string, objective: string, status: string, specialAdCategories: seq<string>)
    | AdSetBody(name: string, campaignId: string, dailyBudget: int, optimizationGoal: string,
                billingEvent: string, bidStrategy: string, status: string, targeting: Value,
                startTime: int, endTime: int)
    | CreativeBody(name: string, pageId: string, message: string, link: string, linkName: string,
                   description: string, callToAction: string, imageHash: string)
    | AdBody(name: string, adSetId: string, creativeId: string, status: string)

  /** The body `create_campaign` posts. */
  function CampaignRequest(name: string, objective: string, status: string): (b: Body)
    ensures b.CampaignBody? && b.specialAdCategories == []
    ensures b.name == name && b.status == status
    ensures b.objective == MetaObjective(objective)
    ensures b.objective in {"BRAND_AWARENESS", "OUTCOME_TRAFFIC", "CONVERSIONS"}
  {
    CampaignBody(name, MetaObjective(objective), status, [])
  }

  /** The body `create_ad_set` posts, `startTime` standing for `int(time.time())`. */
  function AdSetRequest(name: string, campaignId: string, dailyBudget: real, targeting: Value,
                        status: string, startTime: int): (b: Body)
    ensures b.AdSetBody? && b.endTime - b.startTime == 2592000
    ensures b.optimizationGoal == "LINK_CLICKS" && b.billingEvent == "IMPRESSIONS"
    ensures b.bidStrategy == "LOWEST_COST_WITHOUT_CAP"
    ensures b.name == name && b.campaignId == campaignId && b.targeting == targeting && b.status == status
    ensures 0.0 <= dailyBudget ==> b.dailyBudget == (dailyBudget * 100.0).Floor
    ensures b.startTime == startTime && b.dailyBudget == BudgetInMinorUnits(dailyBudget)
  {
    AdSetBody(name, campaignId, BudgetInMinorUnits(dailyBudget), "LINK_CLICKS", "IMPRESSIONS",
              "LOWEST_COST_WITHOUT_CAP", status, targeting, startTime, startTime + RunWindowSeconds)
  }

  /** The body `create_ad` posts once the creative exists. */
  function AdRequest(name: string, adSetId: string, creativeId: string, status: string): Body {
    AdBody(name, adSetId, creativeId, status)
  }

  /** The error `create_ad_creative` raises before any request, or the body it posts. */
  function CreativeRequest(data: map<string, string>): (r: Result<Body, ApiError>)
    ensures r.Failure? <==> "page_id" !in data || data["page_id"] == ""
    ensures r.Failure? ==> r.error == Invalid(PageIdRequired)
    ensures r.Success? ==>
      && r.value.CreativeBody?
      && r.value.pageId == data["page_id"]
      && r.value.imageHash == PlaceholderImageHash
      && r.value.callToAction == GetStr(data, "call_to_action", "LEARN_MORE")
  {
    var title := GetStr(data, "title", "");
    var pageId := GetStr(data, "page_id", "");
    if pageId == "" then Failure(Invalid(PageIdRequired))
    else
      Success(CreativeBody("Creative for " + title, pageId, GetStr(data, "body", ""),
                           GetStr(data, "website_url", ""), title, GetStr(data, "description", ""),
                           GetStr(data, "call_to_action", "LEARN_MORE"), PlaceholderImageHash))
  }

  /** The creative is named after its title, and the copy lands in the link data: body as message,
      website URL as link, title as link name. */
  lemma CreativeFieldMapping(data: map<string, string>)
    requires "page_id" in data && data["page_id"] != ""
    ensures var b := CreativeRequest(data).value;
      && b.name == "Creative for " + GetStr(data, "title", "")
      && b.message == GetStr(data, "body", "")
      && b.link == GetStr(data, "website_url", "")
      && b.linkName == GetStr(data, "title", "")
      && b.description == GetStr(data, "description", "")
  {
  }

  /** The supplied image URL has no influence on the creative: the hash is a constant. */
  lemma CreativeIgnoresImageUrl(data: map<string, string>, imageUrl: string)
    ensures CreativeRequest(data["image_url" := imageUrl]) == CreativeRequest(data)
  {
    var data' := data["image_url" := imageUrl];
    assert forall k :: k != "image_url" ==> GetStr(data', k, "") == GetStr(data, k, "");
    assert GetStr(data', "call_to_action", "LEARN_MORE") == GetStr(data, "call_to_action", "LEARN_MORE");
  }

  // ---------------------------------------------------------------------------
  // Replies and errors
  // ---------------------------------------------------------------------------

  /** A write: the token, the ad account, and the body posted to the account's edge. */
  datatype Write = Write(accessToken: string, adAccountId: string, body: Body)

  /** What the platform answers to a write: the new id; an error response whose body carries an
      `error` object (with or without `error_user_msg`), together with the text of the raised
      exception; or a failure on one of the paths where the client itself breaks (no `error` object,
      a body that is not JSON, no response at all). */
  datatype Reply = Created(id: string) | Refused(userMessage: Option<string>, detail: string) | Unreadable

  /** A failure surfaced by the client. `Unexplained` stands for the exception raised on a broken
      error path, whose text the model does not fix. */
  datatype ApiError = Rejected(message: string) | Unexplained | Invalid(message: string)

  const CampaignOp := "create campaign"
  const AdSetOp := "create ad set"
  const CreativeOp := "create ad creative"
  const AdOp := "create ad"

  /** The operation named in the message when a write of this kind is refused. */
  function OpOf(body: Body): (op: string)
    ensures op in {CampaignOp, AdSetOp, CreativeOp, AdOp}
    ensures body.CampaignBody? <==> op == CampaignOp
    ensures body.AdSetBody? <==> op == AdSetOp
    ensures body.CreativeBody? <==> op == CreativeOp
    ensures body.AdBody? <==> op == AdOp
  {
    match body
    case CampaignBody(_, _, _, _) => CampaignOp
    case AdSetBody(_, _, _, _, _, _, _, _, _, _) => AdSetOp
    case CreativeBody(_, _, _, _, _, _, _, _) => CreativeOp
    case AdBody(_, _, _, _) => AdOp
  }

  /** The composed message of a refused write. */
  function FailureMessage(operation: string, userMessage: Option<string>, detail: string): string {
    "Failed to " + operation + " - " + userMessage.GetOr("") + "\n\nError Detail:\n" + detail
  }

  /** The platform's user-facing text appears verbatim in the composed message. */
  lemma FailureMessageShowsPlatformText(operation: string, userMessage: string, detail: string)
    ensures Text.Contains(FailureMessage(operation, Some(userMessage), detail), userMessage)
  {
    var prefix := "Failed to " + operation + " - ";
    var m := FailureMessage(operation, Some(userMessage), detail);
    assert m == prefix + userMessage + ("\n\nError Detail:\n" + detail);
    assert m[|prefix|..|prefix| + |userMessage|] == userMessage;
    assert Text.OccursAt(m, userMessage, |prefix|);
  }

  /** What a create call returns, or raises, for a reply. */
  function Interpret(operation: string, reply: Reply): (r: Result<string, ApiError>)
    ensures r.Success? <==> reply.Created?
    ensures reply.Created? ==> r.value == reply.id
    ensures reply.Refused? ==> r.error == Rejected(FailureMessage(operation, reply.userMessage, reply.detail))
    ensures reply.Unreadable? ==> r.error == Unexplained
  {
    match reply
    case Created(id) => Success(id)
    case Refused(userMessage, detail) => Failure(Rejected(FailureMessage(operation, userMessage, detail)))
    case Unreadable => Failure(Unexplained)
  }

  // ---------------------------------------------------------------------------
  // Read-only calls
  // ---------------------------------------------------------------------------

  /** The reply of `GET /me`: the user's name when it is present, an HTTP error status with the
      exception text, or no response at all. */
  datatype IdentityReply = Identity(name: Option<string>) | HttpFailure(status: int, detail: string) | NoResponse

  datatype AccessCheck = AccessCheck(connected: bool, message: string)

  /** `check_api_access`. `None` stands for the exception raised when no response exists (the handler
      reads the unbound `response`). */
  function CheckApiAccess(reply: IdentityReply): (r: Option<AccessCheck>)
    ensures r.None? <==> reply.NoResponse?
    ensures r.Some? ==> (r.value.connected <==> reply.Identity?)
    ensures reply.Identity? ==> r.value.message == "Connected as " + reply.name.GetOr("Unknown")
    ensures reply.HttpFailure? && reply.status == 401 ==> r.value.message == "Invalid access token"
    ensures reply.HttpFailure? && reply.status != 401 ==>
      r.value.message == "API connection error: " + reply.detail
  {
    match reply
    case Identity(name) => Some(AccessCheck(true, "Connected as " + name.GetOr("Unknown")))
    case HttpFailure(status, detail) =>
      if status == 401 then Some(AccessCheck(false, "Invalid access token"))
      else Some(AccessCheck(false, "API connection error: " + detail))
    case NoResponse => None
  }

  /** The reply of `GET /me/adaccounts`: the ids of the listed accounts (absent when the body has no
      `data` member), or a failed request. */
  datatype AccountsReply = Accounts(data: Option<seq<string>>) | RequestFailed

  /** `get_ad_account_id`: the first listed account, or nothing; never an error. */
  function GetAdAccountId(reply: AccountsReply): (r: Option<string>)
    ensures r.Some? <==> reply.Accounts? && reply.data.Some? && |reply.data.value| > 0
    ensures r.Some? ==> r.value == reply.data.value[0]
  {
    match reply
    case Accounts(data) => if data.Some? && |data.value| > 0 then Some(data.value[0]) else None
    case RequestFailed => None
  }

  // ---------------------------------------------------------------------------
  // The platform and the write sequences
  // ---------------------------------------------------------------------------

  /** The platform's answer to the n-th write it receives. */
  type Responder = (nat, Write) -> Reply

  /** The platform, seen from the client: the writes it has received, in order. */
  class Platform {
    var writes: seq<Write>
    const respond: Responder

    constructor (respond: Responder)
      ensures writes == [] && this.respond == respond
    {
      this.respond := respond;
      writes := [];
    }

    /** One POST request. */
    method Post(w: Write) returns (reply: Reply)
      modifies this
      ensures writes == old(writes) + [w]
      ensures reply == respond(|old(writes)|, w)
    {
      reply := respond(|writes|, w);
      writes := writes + [w];
    }
  }

  /** The writes a client operation issues and what it returns or raises. */
  datatype Run = Run(writes: seq<Write>, result: Result<string, ApiError>)

  /** `create_ad_creative` against a platform that has already received `n` writes. */
  function CreativeRun(respond: Responder, n: nat, accessToken: string, adAccountId: string,
                       data: map<string, string>): (run: Run)
    ensures run.writes == [] <==> CreativeRequest(data).Failure?
    ensures run.writes == [] ==> run.result == Failure(Invalid(PageIdRequired))
    ensures run.writes != [] ==>
      && run.writes == [Write(accessToken, adAccountId, CreativeRequest(data).value)]
      && run.result == Interpret(CreativeOp, respond(n, run.writes[0]))
  {
    match CreativeRequest(data)
    case Failure(e) => Run([], Failure(e))
    case Success(body) =>
      var w := Write(accessToken, adAccountId, body);
      Run([w], Interpret(CreativeOp, respond(n, w)))
  }

  /** `create_ad`: the creative first, then the ad that embeds the creative's id. */
  function CreateAdRun(respond: Responder, n: nat, accessToken: string, adAccountId: string, name: string,
                       adSetId: string, data: map<string, string>, status: string): Run
  {
    var creative := CreativeRun(respond, n, accessToken, adAccountId, data);
    match creative.result
    case Failure(e) => creative
    case Success(creativeId) =>
      var w := Write(accessToken, adAccountId, AdRequest(name, adSetId, creativeId, status));
      Run(creative.writes + [w], Interpret(AdOp, respond(n + 1, w)))
  }

  /** `create_ad` writes the creative before the ad, and the ad embeds the creative's returned id, its
      ad set and its status. If the creative step fails no ad is written; if the ad write fails the
      creative stays written, since no write ever removes it. */
  lemma CreateAdSequence(respond: Responder, n: nat, accessToken: string, adAccountId: string, name: string,
                         adSetId: string, data: map<string, string>, status: string)
    ensures var run := CreateAdRun(respond, n, accessToken, adAccountId, name, adSetId, data, status);
      && |run.writes| <= 2
      && (forall i :: 0 <= i < |run.writes| ==> run.writes[i].accessToken == accessToken
                                                 && run.writes[i].adAccountId == adAccountId)
      && (run.writes != [] ==> run.writes[0].body.CreativeBody?)
      && (|run.writes| == 2 <==> run.writes != [] && respond(n, run.writes[0]).Created?)
      && (|run.writes| == 2 ==>
            run.writes[1].body == AdBody(name, adSetId, respond(n, run.writes[0]).id, status))
      && (|run.writes| < 2 ==> run.result.Failure?
                               && run.result == CreativeRun(respond, n, accessToken, adAccountId, data).result)
      && (run.result.Success? <==>
            |run.writes| == 2 && respond(n + 1, run.writes[1]).Created?)
      && (run.result.Success? ==> run.result.value == respond(n + 1, run.writes[1]).id)
  {
  }

  /** An ad write that fails after the creative was created leaves that creative on the platform: the
      trace holds the created creative and the failed ad, and the call raises the ad's error. */
  lemma CreateAdLeavesOrphanCreative(respond: Responder, n: nat, accessToken: string, adAccountId: string,
                                     name: string, adSetId: string, data: map<string, string>, status: string)
    requires var run := CreateAdRun(respond, n, accessToken, adAccountId, name, adSetId, data, status);
      |run.writes| == 2 && run.result.Failure?
    ensures var run := CreateAdRun(respond, n, accessToken, adAccountId, name, adSetId, data, status);
      && run.writes[0].body.CreativeBody? && respond(n, run.writes[0]).Created?
      && run.result == Interpret(AdOp, respond(n + 1, run.writes[1]))
  {
  }

  // ---------------------------------------------------------------------------
  // Client calls
  // ---------------------------------------------------------------------------

  /** `create_campaign`: one write of the campaign body. */
  method CreateCampaign(p: Platform, accessToken: string, adAccountId: string, name: string,
                        objective: string, status: string) returns (r: Result<string, ApiError>)
    modifies p
    ensures p.writes == old(p.writes) + [Write(accessToken, adAccountId, CampaignRequest(name, objective, status))]
    ensures r == Interpret(CampaignOp, p.respond(|old(p.writes)|, p.writes[|old(p.writes)|]))
  {
    var reply := p.Post(Write(accessToken, adAccountId, CampaignRequest(name, objective, status)));
    r := Interpret(CampaignOp, reply);
  }

  /** `create_ad_set`: one write of the ad-set body. */
  method CreateAdSet(p: Platform, accessToken: string, adAccountId: string, name: string, campaignId: string,
                     dailyBudget: real, targeting: Value, status: string, startTime: int)
    returns (r: Result<string, ApiError>)
    modifies p
    ensures p.writes == old(p.writes) + [Write(accessToken, adAccountId,
                                               AdSetRequest(name, campaignId, dailyBudget, targeting, status, startTime))]
    ensures r == Interpret(AdSetOp, p.respond(|old(p.writes)|, p.writes[|old(p.writes)|]))
  {
    var body := AdSetRequest(name, campaignId, dailyBudget, targeting, status, startTime);
    var reply := p.Post(Write(accessToken, adAccountId, body));
    r := Interpret(AdSetOp, reply);
  }

  /** `create_ad_creative`: a local page-id check, then one write of the creative body. */
  method CreateAdCreative(p: Platform, accessToken: string, adAccountId: string, data: map<string, string>)
    returns (r: Result<string, ApiError>)
    modifies p
    ensures var run := CreativeRun(p.respond, |old(p.writes)|, accessToken, adAccountId, data);
      p.writes == old(p.writes) + run.writes && r == run.result
  {
    var request := CreativeRequest(data);
    if request.Failure? {
      return Failure(request.error);
    }
    var reply := p.Post(Write(accessToken, adAccountId, request.value));
    r := Interpret(CreativeOp, reply);
  }

  /** `create_ad`: the creative, then the ad embedding the creative's id; nothing is undone on failure. */
  method CreateAd(p: Platform, accessToken: string, adAccountId: string, name: string, adSetId: string,
                  data: map<string, string>, status: string) returns (r: Result<string, ApiError>)
    modifies p
    ensures var run := CreateAdRun(p.respond, |old(p.writes)|, accessToken, adAccountId, name, adSetId, data, status);
      p.writes == old(p.writes) + run.writes && r == run.result
  {
    var creative := CreateAdCreative(p, accessToken, adAccountId, data);
    if creative.Failure? {
      return Failure(creative.error);
    }
    var reply := p.Post(Write(accessToken, adAccountId, AdRequest(name, adSetId, creative.value, status)));
    r := Interpret(AdOp, reply);
  }
}
