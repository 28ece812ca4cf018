# AI-powered campaign creator: a Dafny model of its core

The application takes a campaign brief in a form and asks a language model for ad copy. It then
creates a paused campaign, ad set, creative and ad on the Meta Graph API. This project models the
stateable logic inside that plumbing and proves properties of it:

- **Targeting and error normalisation** (`ads_api/utils.py`), in module `AdsUtils`: the partial,
  additive targeting formatter and the three-way error classification.
- **Request bodies and call sequencing** (`ads_api/meta_ads.py`), in module `MetaAds`: the
  objective table, the budget in minor units, the 30-day window, the fixed ad-set settings, the
  creative layout with its local page-id check, and the two-write `create_ad`. The platform is a
  `Platform` object that records the writes it receives in order. It answers the n-th write through a
  fixed responder function, so it is an oracle that returns an id or fails. Each client call is a
  method that appends to this trace. The method is proved equal to a pure run function, and the
  ordering and id-threading lemmas are stated about that function.
- **Content extraction and validation** (`llm_handler.py`), in module `LlmHandler`: the slice from
  the first `{` to the last `}`, the fence-stripping retry, the four-key check, the prompt defaults,
  and the order of the key guard, the completion, parsing and validation. The JSON parser and the
  language-model completion are function parameters.
- **The creation flow** (`main.py`), in module `App`: the country and gender mappings, the
  required-field check, and a `Session` class with the three session fields. Its methods are the
  generate, create and reset buttons. Creation is guarded by the token, the page id and the ad
  account, and it commits only after all three create calls return.

Support modules: `Wrappers` (Option, Result, Outcome), `Values` (a dynamic JSON-like value with
Python's `dict.get` and `len`) and `Text` (`str.find`, `str.rfind`, substring occurrence and
`str.replace(p, "")`).

## Model

| member | source | states |
|---|---|---|
| AdsUtils.HandleApiError | ads_api/utils.py:15-40 | An undecodable body gives the status, the body text (or "Unknown API error") and subcode "invalid_json". A body without `error` gives the status, "Unknown API error", "api_error" and "unknown". An `error` object gives its four fields, each with its fallback ("unknown" / "Unknown error"). A non-object `error` raises. |
| AdsUtils.AllHaveLengthTwo | ads_api/utils.py:77 | `all(len(loc) == 2 ...)` raises exactly when an element without a length comes before any element of length other than 2. Otherwise it is true iff every entry has length 2. |
| AdsUtils.AgeEntries | ads_api/utils.py:56-59 | `age_min` and `age_max` are copied unchanged when present and omitted when absent. |
| AdsUtils.GenderEntries | ads_api/utils.py:62-67 | `genders` is in the output iff the input value is a non-empty list, and then it is identical to the input. |
| AdsUtils.GeoEntries | ads_api/utils.py:70-80 | An explicit `geo_locations` passes through verbatim and `locations` is ignored. A non-empty `locations` list gives countries equal to the list when every entry has length 2, else none, with empty cities and regions. An empty or non-list value gives no key. |
| AdsUtils.UnpackPair | ads_api/utils.py:86 | Two-name unpacking succeeds exactly for a list, tuple or string of length 2. The first element becomes the id and the second the name; a string yields its two characters. |
| AdsUtils.InterestObjects | ads_api/utils.py:84-87 | On success the records are `{id, name}` with the same length and order as the input pairs. Success iff every element unpacks, and a failure carries the first bad element's error. |
| AdsUtils.InterestEntries | ads_api/utils.py:83-87 | `interests` appears only when the input value is a list, and then holds the records of `InterestObjects`. |
| AdsUtils.FormatTargetingSpec | ads_api/utils.py:43-89 | Fails iff the geo or interest step raises, with the geo step's error when both do. On success the output is the union of the four parts, and its keys are a subset of {age_min, age_max, genders, geo_locations, interests}. |
| AdsUtils.FormattedSpecPassesThrough | ads_api/utils.py:56-72 | On a successful result, ages are copied, genders appear exactly for a non-empty list, and an explicit geo_locations wins. |
| AdsUtils.FormattedSpecLocations | ads_api/utils.py:72-80 | Without `geo_locations`, the location key appears iff `locations` is a non-empty list. It then has the length-2 countries and empty cities and regions. |
| MetaAds.MetaObjective | ads_api/meta_ads.py:91-97 | AWARENESS→BRAND_AWARENESS and CONVERSIONS→CONVERSIONS. Every other string, CONSIDERATION included, →OUTCOME_TRAFFIC. |
| MetaAds.BudgetInMinorUnits | ads_api/meta_ads.py:153 | `int(x * 100)` truncates toward zero: the floor for a non-negative budget, the ceiling for a negative one. |
| MetaAds.CampaignRequest | ads_api/meta_ads.py:97-106 | The campaign body has empty `special_ad_categories`, name and status unchanged, and the mapped objective, always one of the three platform objectives. |
| MetaAds.AdSetRequest | ads_api/meta_ads.py:150-174 | `end_time - start_time` is 2592000 seconds. The goal is LINK_CLICKS, billing IMPRESSIONS and bid strategy LOWEST_COST_WITHOUT_CAP. The window starts at the given start time. Name, campaign id, targeting and status are embedded unchanged. The budget is `BudgetInMinorUnits` of the daily budget, the floor of ×100 for a non-negative budget. |
| MetaAds.CreativeRequest | ads_api/meta_ads.py:271-298 | Fails locally with the page-id message iff `page_id` is missing or empty. Otherwise the body is built from the data, with the constant image hash. |
| MetaAds.CreativeFieldMapping | ads_api/meta_ads.py:271-297 | The name is "Creative for " + title, body→message, website_url→link, title→name. The call to action defaults to LEARN_MORE. |
| MetaAds.CreativeIgnoresImageUrl | ads_api/meta_ads.py:271-297 | The creative is the same whatever `image_url` is: the image hash is a constant. |
| MetaAds.FailureMessageShowsPlatformText | ads_api/meta_ads.py:120 | The platform's `error_user_msg` appears verbatim in the raised message. |
| MetaAds.Interpret | ads_api/meta_ads.py:112-123 | A reply succeeds iff it carries an id, and the id is returned. A structured refusal raises "Failed to <op> - <user message>\n\nError Detail:\n<detail>". |
| MetaAds.CheckApiAccess | ads_api/meta_ads.py:7-34 | Connected iff the identity call succeeds, as "Connected as <name or Unknown>". A 401 gives "Invalid access token", any other HTTP failure "API connection error: ...". No response breaks. |
| MetaAds.GetAdAccountId | ads_api/meta_ads.py:37-67 | The first listed account when the list exists and is non-empty. Nothing when the list is absent or empty, or the request failed. |
| MetaAds.Platform.constructor | ads_api/meta_ads.py:113 | The platform starts with no writes and a fixed responder. |
| MetaAds.Platform.Post | ads_api/meta_ads.py:113 | A post appends exactly its write to the trace and returns the responder's answer for its position. |
| MetaAds.CreativeRun | ads_api/meta_ads.py:252-316 | No write iff the local page-id check fails. Otherwise there is exactly one creative write, interpreted by its reply. |
| MetaAds.CreateAdSequence | ads_api/meta_ads.py:216-249 | The creative is written before the ad, and the ad embeds the creative's returned id, its ad set and its status. If the creative step fails no ad is written, and the creative's own error is raised. Success iff both writes returned ids. |
| MetaAds.CreateAdLeavesOrphanCreative | ads_api/meta_ads.py:237-249 | A failed ad write leaves the created creative in the trace (no rollback) and raises the ad's error. |
| MetaAds.CreateCampaign | ads_api/meta_ads.py:70-123 | Appends exactly the campaign body write and returns the interpretation of its reply. |
| MetaAds.CreateAdSet | ads_api/meta_ads.py:126-191 | Appends exactly the ad-set body write and returns the interpretation of its reply. |
| MetaAds.CreateAdCreative | ads_api/meta_ads.py:252-316 | Changes the trace exactly as `CreativeRun` describes, and returns its result. |
| MetaAds.CreateAd | ads_api/meta_ads.py:194-249 | Changes the trace exactly as `CreateAdRun` describes, and returns its result. |
| Text.IndexOf | llm_handler.py:136 | `str.find`: -1 iff the character is absent, else the index of its first occurrence. |
| Text.LastIndexOf | llm_handler.py:137 | `str.rfind`: -1 iff the character is absent, else the index of its last occurrence. |
| LlmHandler.FirstMissing | llm_handler.py:164-166 | The first field, in list order, that is absent from the content, or none iff all are present. |
| LlmHandler.ValidateContent | llm_handler.py:152-166 | Passes iff headline, primary_text, description and image_description are all present; extra keys are accepted. A failure names the first missing field in that order. |
| LlmHandler.ExtractJson | llm_handler.py:125-149 | Fails with "no JSON" iff `{` or `}` is absent. Otherwise the brace span's parse is returned if it decodes. If not, the fence-stripped retry's parse is returned, or its decoder error is raised. |
| LlmHandler.ExtractParsesBraceSpan | llm_handler.py:136-142 | What is parsed is exactly `text[first '{' .. last '}']`, inclusive. |
| LlmHandler.StripFencesLeavesNoFence | llm_handler.py:145 | After the retry's two removals neither "```json" nor "```" occurs. |
| LlmHandler.NoFenceAfterRemoval | llm_handler.py:145 | Removing every "```" leaves no "```", even across the joins the removal creates. |
| LlmHandler.LeadingTicksAfterRemoval | llm_handler.py:145 | A run of k backticks is reduced to k mod 3 by the removal. |
| LlmHandler.StripFencesWithoutBackticks | llm_handler.py:145 | Text without backticks is left unchanged by the retry. |
| LlmHandler.CampaignPromptInputs | llm_handler.py:76-99 | Each of the ten brief fields is read with its default (objective CONSIDERATION, CTA LEARN_MORE, age range "25-45", gender ALL, locations "United States"). A non-dict `target_audience` raises. |
| LlmHandler.EmptyBriefDefaults | llm_handler.py:76-99 | An empty brief yields exactly the documented defaults. |
| LlmHandler.ParseReply | llm_handler.py:51-54 | Direct parsing wins. Otherwise a reply without braces fails with the extraction message. With both braces, the brace span's parse is returned, else its fence-stripped retry's parse or decoder error. |
| LlmHandler.ReplyContent | llm_handler.py:49-59 | A parse failure is reported with the prefix. Parsed content with the four fields is returned. Parsed content missing one raises the prefixed message naming the first missing field. |
| LlmHandler.GenerateCampaignContent | llm_handler.py:6-62 | A missing key fails, iff, before the prompt is built or the client is called. With a key, a malformed brief raises as it is, and a client failure is reported with the prefix. Otherwise the reply goes through `ReplyContent`. Returned content always has the four keys and is the parse of the completion of the prompt built from the brief. |
| App.Distinct | main.py:126 | The deduplicated list has no duplicates and the same elements. |
| App.CountryCodes | main.py:125-126 | Selected names map through the ISO table. The result has no duplicates, and its elements are exactly the image of the selection. |
| App.SelectedGender | main.py:188 | Only the first selected gender is used, and ALL when none is selected. |
| App.GenderCodes | main.py:253-254 | MALE→[1] and FEMALE→[2], each iff. Anything else, including ALL, →[]. |
| App.StrList | main.py:125-126 | The country codes become a JSON list of the same strings, in the same order. |
| App.BriefOfPromptInputs | main.py:153-166 | A brief laid out as the form lays it out supplies all ten prompt inputs, so no default applies. |
| App.IntToStringExamples | main.py:159 | The age range of the form's default ages reads "25-45"; `str` of -7, 0 and 100 reads "-7", "0" and "100". |
| App.BriefReachesPrompt | main.py:153-166 | The prompt is filled from the form. The age range reads "min-max", the gender is the first selected one, and the countries are the deduplicated ISO codes (in the model's first-occurrence order). |
| App.CampaignDetails | main.py:179-191 | The stored details are the form's name, objective, budget, URL and call to action, with no ids. The audience has the entered ages and the first selected gender (or ALL). Its countries have no duplicates and are exactly the ISO image of the selection. |
| App.FormTargeting | main.py:250-256 | The ad-set targeting has exactly the ages, genders and geo keys. The ages are as entered, the code is 1 or 2 only for a first-selected MALE or FEMALE, and the countries are the mapped codes (in the model's first-occurrence order). |
| App.PlanOf | main.py:236-274 | The create calls get the stored name, objective, budget and targeting, and the page id from the sidebar. |
| App.LaunchOrder | main.py:234-276 | Writes run strictly campaign → ad set → creative → ad, with between one and four writes. |
| App.LaunchWaitsForIds | main.py:234-276 | Each write is issued only after the previous one was answered with an id. |
| App.LaunchPausedOnOneAccount | main.py:234-276 | All writes carry the one token and ad account, and every status set is PAUSED. |
| App.LaunchThreadsIds | main.py:244-284 | The ad set embeds the campaign id, and the ad embeds the ad-set and creative ids. The run is live iff all four writes returned ids, and it then reports those ids; otherwise it fails. |
| App.LaunchFailuresComeFromPlatform | main.py:262-290 | With the page id already checked, every failure is the platform's refusal of the last write, never the creative's local check. The error reported is that write's reply, interpreted for its operation (campaign, ad set, creative or ad). |
| App.RefusedAdSetHalts | main.py:245-289 | A refused ad set stops the run after two writes with the platform's own message. No creative or ad is requested. |
| App.CreationGuards | main.py:220-232 | No write happens iff the token or page id is empty or no ad account is found, and the guards are checked in that order. |
| App.CreationUsesStoredDetails | main.py:235-257 | The campaign is named and aimed as stored. The ad set is named "<name> - Ad Set", gets the campaign's id and the stored budget, and carries the inline targeting (countries in the stored order). |
| App.CreativeCarriesGeneratedCopy | main.py:266-274 | The creative built from the creative data is named "Creative for <headline>". Its message is the primary text and its link name the headline. It keeps the description and has the stored link and call to action, the sidebar's page id and the constant image hash. |
| App.LaunchPostsCampaignThenAdSet | main.py:235-257 | The first write is the plan's paused campaign. A second is the paused ad set named "<name> - Ad Set", embedding the id the campaign write returned and carrying the plan's budget and targeting. |
| App.LaunchPostsCreativeThenAd | main.py:261-276 | A third write is the plan's creative. A fourth is the ad named "<name> - Ad", paused, embedding the ids the ad-set and creative writes returned. |
| App.CreationPostsGeneratedCopy | main.py:261-276 | Past the ad set, the creative posted carries the generated copy and the stored link and call to action. The ad is named after the stored campaign and embeds the returned ad-set and creative ids. |
| App.Launch | main.py:235-276 | Changes the trace exactly as `LaunchRun` describes, and returns its outcome. |
| App.Create | main.py:219-276 | Changes the trace exactly as `CreationRun` describes (guards, then the launch), and returns its outcome. |
| App.Submission | main.py:147-178 | A required field is empty iff nothing is generated for that reason. A missing API key fails next. Otherwise the generator's result on the brief is passed on, and returned content always has the four keys. |
| App.Session.constructor | main.py:50-55 | The session starts with nothing created and both dicts empty. |
| App.Session.SubmitBrief | main.py:147-194 | On success the content and fresh details are stored; otherwise nothing changes. `campaign_created` is never touched. |
| App.Session.Store | main.py:176-191 | The content and details are stored only for a successful generation, and the session stays consistent. |
| App.Session.CreateOnMeta | main.py:219-290 | The platform trace grows exactly by the creation run. `campaign_created` becomes true, and the three ids are recorded, iff all three calls returned. Any failure leaves the session unchanged. |
| App.Session.Commit | main.py:278-284 | A live campaign is marked created and its ids are recorded; any other outcome changes nothing. |
| App.Session.Reset | main.py:319-323 | `campaign_created` becomes false and both dicts are emptied. |

## Left out

- HTTP transport (`requests`, `raise_for_status`, response objects, the Graph API base URL and each write's endpoint path) is replaced by the responder oracle. A successful reply always carries an id in the model; a 2xx body without `id` (where the client returns `None`) is not modelled.
- The broken error paths are modelled as `ApiError.Unexplained`, with no message: an error body without an `error` object, a non-JSON error body, and a transport failure with no response. Each of these raises a different exception in the source. The `" - " + e.response.text` suffix is not modelled, since `e.response` is falsy for error responses.
- AdsUtils.HandleApiError: a response body that decodes to a JSON value other than an object (a string, list, number or null) is not modelled. For those, `"error" in` at ads_api/utils.py:18 is a substring or membership test or raises, and the indexing at ads_api/utils.py:19 raises.
- MetaAds.GetAdAccountId: the reply is modelled as a list of account ids. A first entry without an `id` is not modelled, nor is a body that is not an object. Such an entry raises a KeyError at ads_api/meta_ads.py:62 that the handler does not catch; main.py:289-290 reports it.
- MetaAds.CheckApiAccess: the exception raised when no response exists (the handler reads an unbound `response`) is modelled as `None`, not as a message.
- `get_page_id` (ads_api/utils.py) and `get_campaign_details` (ads_api/meta_ads.py) are network reads that the creation flow does not use.
- config.py (environment and file I/O) and ads_api/__init__.py (re-exports) are not part of this model.
- The language-model call (llm_handler.py:31-49), with its model name, temperature and token limit, is a function parameter. `json.loads` is a parser parameter that returns a string-to-string map. Non-string JSON values in the reply are not modelled. Nor are replies that decode to a list or a string. For those, `field not in content` (llm_handler.py:165) is a list-membership or substring test, so a JSON list of the four field names passes validation and is returned as content.
- The prompt's wording is left out. The model keeps the values that fill it (`PromptInputs`).
- LlmHandler.GenerateCampaignContent: the missing-key error is the constructor `MissingApiKey`, without the text of its message.
- The API key is a parameter. In the source it is read from the environment, which the sidebar's "Save Settings" button writes.
- Streamlit rendering (widgets, columns, spinners, `st.rerun`), the "Check Meta API Connection" button and the `datetime.now()` default campaign name are left out. The campaign name is a form field.
- Wall-clock time: the ad-set start time is a parameter instead of `time.time()`.
- MetaAds.BudgetInMinorUnits: the budget is a real number, so IEEE rounding in `daily_budget * 100` is not modelled.
- App.Distinct: `list(set(...))` has a hash-dependent order in Python. The model keeps first occurrences in order. Only the absence of duplicates and the element set are claimed for the source. The country order in `App.BriefReachesPrompt`, `App.FormTargeting` and `App.CreationUsesStoredDetails` is the model's choice.
- AdsUtils.UnpackPair: unpacking a two-key dict, which Python allows by iterating its keys, is treated as an error.
- `campaign_details` is a record (`App.Details`) rather than a dict, because the handlers only ever write and read the same fixed entries. An empty dict is `None`, and `.update` with the three ids sets the record's `ids`.
- App.CountryCodes requires every selected name to be in the ISO table; the multiselect offers only those names.
- The form's numeric bounds (ages 18-65, budget 85-1000) are not required anywhere.
- main.py builds the ad-set targeting inline and never calls `format_targeting_spec`, so the formatter's properties are not claimed for the creation flow.
