/** The enrichment client: what `enrich_company_data` makes of the answer to its POST request.
    The request itself is not modelled; its answer is an `ApiReply`. */
module Client {
  import opened Wrappers
  import opened Json
  import opened Text

  /** The twelve attributes the client extracts for one company: one row of the
      `company_enriched_data` table apart from its key. `followerCount` is whatever JSON
      value the response carried (or `0`); every other attribute is a stripped string. */
  datatype Company = Company(
    followerCount: Value,
    tagline: string,
    industry: string,
    country: string,
    city: string,
    geographicArea: string,
    postalCode: string,
    companyName: string,
    url: string,
    websiteUrl: string,
    logoResolutionResult: string,
    croppedCoverImage: string)
  {
    /** The eleven string attributes, in column order. */
    function Texts(): seq<string> {
      [tagline, industry, country, city, geographicArea, postalCode,
       companyName, url, websiteUrl, logoResolutionResult, croppedCoverImage]
    }

    /** `any(relevant_data.values())`: some attribute is truthy. */
    predicate HasData() {
      Truthy(followerCount) || exists i :: 0 <= i < |Texts()| && Texts()[i] != ""
    }
  }

  /** What the POST request to the profile API yields: a transport failure (no connection,
      non-2xx status), a body that is not JSON, or a decoded body. */
  datatype ApiReply = TransportError | DecodeError | Body(json: Value)

  /** The outcome of `enrich_company_data`: no data (`None`), a record, or an exception that
      escapes it (an `AttributeError` from an ill-typed response, which the client does not catch). */
  datatype Enrichment = NoData | Found(record: Company) | Raises

  /** `value` is something `safe_strip` accepts: falsy, or a string. */
  predicate Strippable(v: Value) {
    !Truthy(v) || v.Str?
  }

  /** `safe_strip`: a falsy value becomes `""`, a string is stripped, and any other truthy
      value has no `.strip()` (`None` here stands for the raised `AttributeError`). */
  function SafeStrip(v: Value): (r: Option<string>)
    ensures r.Some? <==> Strippable(v)
  {
    if !Truthy(v) then Some("")
    else if v.Str? then Some(Strip(v.s))
    else None
  }

  /** The object behind a `.get` call; any other value has no `.get` (`None`). */
  function AsObject(v: Value): Option<map<string, Value>> {
    if v.Obj? then Some(v.fields) else None
  }

  /** The `relevant_data` dictionary built from a non-empty `data` object, before the final
      any-field check; `None` when one of the look-ups raises. The look-ups run in the code's
      order, except that `followerCount` is read last and `headquarter` once; neither
      difference is observable, since a `.get` with a default never raises. */
  function ExtractFields(info: map<string, Value>): (r: Option<Company>)
    ensures r.Some? <==> WellTyped(info)
  {
    var tagline :- SafeStrip(Get(info, "tagline"));
    var industry :- SafeStrip(Get(info, "industry"));
    var hq :- AsObject(GetOr(info, "headquarter", Obj(map[])));
    var country :- SafeStrip(Get(hq, "country"));
    var city :- SafeStrip(Get(hq, "city"));
    var geographicArea :- SafeStrip(Get(hq, "geographicArea"));
    var postalCode :- SafeStrip(Get(hq, "postalCode"));
    var companyName :- SafeStrip(Get(info, "companyName"));
    var url :- SafeStrip(Get(info, "url"));
    var websiteUrl :- SafeStrip(Get(info, "websiteUrl"));
    var logo :- SafeStrip(Get(info, "logoResolutionResult"));
    var cover :- SafeStrip(Get(info, "croppedCoverImage"));
    Some(Company(GetOr(info, "followerCount", Int(0)), tagline, industry, country, city,
                 geographicArea, postalCode, companyName, url, websiteUrl, logo, cover))
  }

  /** The mapping from a decoded response body to the enrichment outcome. */
  function MapResponse(body: Value): (r: Enrichment)
    ensures body.Obj? && "data" !in body.fields ==> r == NoData
    ensures body.Obj? && "data" in body.fields && body.fields["data"] == Obj(map[]) ==> r == NoData
    ensures r.Found? ==> r.record.HasData()
  {
    match AsObject(body)
    case None => Raises
    case Some(top) =>
      var info := GetOr(top, "data", Obj(map[]));
      if !Truthy(info) then NoData
      else
        match AsObject(info)
        case None => Raises
        case Some(fields) =>
          match ExtractFields(fields)
          case None => Raises
          case Some(c) => if c.HasData() then Found(c) else NoData
  }

  /** `enrich_company_data` after the request: a failed request or an undecodable body is
      caught and reported as no data. */
  function EnrichCompanyData(reply: ApiReply): Enrichment {
    match reply
    case TransportError => NoData
    case DecodeError => NoData
    case Body(json) => MapResponse(json)
  }

  // ---------------------------------------------------------------------------------------
  // Reference description of the mapping, independent of the order of the look-ups

  /** What a field reads as once `safe_strip` has accepted it. */
  function Normalized(v: Value): string {
    if v.Str? then Strip(v.s) else ""
  }

  /** The `headquarter` object, or `{}` when the key is missing. */
  function Headquarter(info: map<string, Value>): map<string, Value> {
    var hq := GetOr(info, "headquarter", Obj(map[]));
    if hq.Obj? then hq.fields else map[]
  }

  /** Every look-up of the mapping succeeds: the eight top-level strings and four headquarter
      strings are falsy or strings, and `headquarter` is missing or an object. */
  predicate WellTyped(info: map<string, Value>) {
    && Strippable(Get(info, "tagline"))
    && Strippable(Get(info, "industry"))
    && GetOr(info, "headquarter", Obj(map[])).Obj?
    && Strippable(Get(Headquarter(info), "country"))
    && Strippable(Get(Headquarter(info), "city"))
    && Strippable(Get(Headquarter(info), "geographicArea"))
    && Strippable(Get(Headquarter(info), "postalCode"))
    && Strippable(Get(info, "companyName"))
    && Strippable(Get(info, "url"))
    && Strippable(Get(info, "websiteUrl"))
    && Strippable(Get(info, "logoResolutionResult"))
    && Strippable(Get(info, "croppedCoverImage"))
  }

  /** The record a well-typed `data` object describes. */
  function Expected(info: map<string, Value>): Company {
    var hq := Headquarter(info);
    Company(
      GetOr(info, "followerCount", Int(0)),
      Normalized(Get(info, "tagline")),
      Normalized(Get(info, "industry")),
      Normalized(Get(hq, "country")),
      Normalized(Get(hq, "city")),
      Normalized(Get(hq, "geographicArea")),
      Normalized(Get(hq, "postalCode")),
      Normalized(Get(info, "companyName")),
      Normalized(Get(info, "url")),
      Normalized(Get(info, "websiteUrl")),
      Normalized(Get(info, "logoResolutionResult")),
      Normalized(Get(info, "croppedCoverImage")))
  }

  lemma SafeStripNormalizes(v: Value)
    requires Strippable(v)
    ensures SafeStrip(v) == Some(Normalized(v))
  {
  }

  /** On a well-typed object the look-ups succeed and build the reference record. */
  lemma ExtractWellTyped(info: map<string, Value>)
    requires WellTyped(info)
    ensures ExtractFields(info) == Some(Expected(info))
  {
    var hq := Headquarter(info);
    SafeStripNormalizes(Get(info, "tagline"));
    SafeStripNormalizes(Get(info, "industry"));
    assert AsObject(GetOr(info, "headquarter", Obj(map[]))) == Some(hq);
    SafeStripNormalizes(Get(hq, "country"));
    SafeStripNormalizes(Get(hq, "city"));
    SafeStripNormalizes(Get(hq, "geographicArea"));
    SafeStripNormalizes(Get(hq, "postalCode"));
    SafeStripNormalizes(Get(info, "companyName"));
    SafeStripNormalizes(Get(info, "url"));
    SafeStripNormalizes(Get(info, "websiteUrl"));
    SafeStripNormalizes(Get(info, "logoResolutionResult"));
    SafeStripNormalizes(Get(info, "croppedCoverImage"));
  }

  /** The whole mapping of a decoded body, case by case. */
  lemma MapResponseSpec(body: Value)
    ensures !body.Obj? ==> MapResponse(body) == Raises
    ensures body.Obj? && !Truthy(GetOr(body.fields, "data", Obj(map[]))) ==> MapResponse(body) == NoData
    ensures body.Obj? && Truthy(GetOr(body.fields, "data", Obj(map[])))
            ==> var info := body.fields["data"];
                && (!info.Obj? ==> MapResponse(body) == Raises)
                && (info.Obj? && !WellTyped(info.fields) ==> MapResponse(body) == Raises)
                && (info.Obj? && WellTyped(info.fields) ==>
                      MapResponse(body) == if Expected(info.fields).HasData() then Found(Expected(info.fields)) else NoData)
  {
    if body.Obj? && "data" in body.fields && body.fields["data"].Obj? {
      var fields := body.fields["data"].fields;
      if WellTyped(fields) {
        ExtractWellTyped(fields);
      }
    }
  }

  // ---------------------------------------------------------------------------------------
  // Field-level consequences

  /** The response keys the eleven string attributes come from, in `Texts()` order; indices
      2 to 5 are looked up inside `headquarter`. */
  const TextKeys: seq<string> :=
    ["tagline", "industry", "country", "city", "geographicArea", "postalCode",
     "companyName", "url", "websiteUrl", "logoResolutionResult", "croppedCoverImage"]

  /** The response value string attribute `i` is read from. */
  function Source(info: map<string, Value>, i: nat): Value
    requires i < |TextKeys|
  {
    if 2 <= i <= 5 then Get(Headquarter(info), TextKeys[i]) else Get(info, TextKeys[i])
  }

  /** A record comes only from an object body whose `data` is a well-typed object, and it is
      the reference record of that object. */
  lemma FoundIsExpected(body: Value)
    requires MapResponse(body).Found?
    ensures body.Obj? && "data" in body.fields && body.fields["data"].Obj?
    ensures WellTyped(body.fields["data"].fields)
    ensures MapResponse(body).record == Expected(body.fields["data"].fields)
  {
    MapResponseSpec(body);
  }

  /** Every string attribute of a returned record is its source value stripped, or `""` when
      the source is missing, `null` or empty; `followerCount` is copied unchanged and
      defaults to `0`; with no `headquarter` the four location attributes are `""`. */
  lemma FoundFields(body: Value)
    requires MapResponse(body).Found?
    ensures body.Obj? && "data" in body.fields && body.fields["data"].Obj?
    ensures ReadsFrom(MapResponse(body).record, body.fields["data"].fields)
  {
    FoundIsExpected(body);
    ExpectedReadsFrom(body.fields["data"].fields);
  }

  /** How the attributes of `r` relate to the `data` object `info` they were read from. */
  ghost predicate ReadsFrom(r: Company, info: map<string, Value>) {
    && (forall i :: 0 <= i < |TextKeys| ==>
          && (Source(info, i).Str? ==> r.Texts()[i] == Strip(Source(info, i).s))
          && (!Truthy(Source(info, i)) ==> r.Texts()[i] == ""))
    && ("followerCount" in info ==> r.followerCount == info["followerCount"])
    && ("followerCount" !in info ==> r.followerCount == Int(0))
    && ("headquarter" !in info ==>
          r.country == "" && r.city == "" && r.geographicArea == "" && r.postalCode == "")
  }

  lemma ExpectedReadsFrom(info: map<string, Value>)
    ensures ReadsFrom(Expected(info), info)
  {
    forall i | 0 <= i < |TextKeys|
      ensures Expected(info).Texts()[i] == Normalized(Source(info, i))
    {
      ExpectedText(info, i);
    }
  }

  lemma ExpectedText(info: map<string, Value>, i: nat)
    requires i < |TextKeys|
    ensures Expected(info).Texts()[i] == Normalized(Source(info, i))
  {
  }

  /** With a well-typed `data` object the client reports no data exactly when every
      attribute of the record it would build is falsy. */
  lemma NoDataIffAllFalsy(body: Value)
    requires body.Obj? && "data" in body.fields
    requires var info := body.fields["data"]; info.Obj? && WellTyped(info.fields)
    ensures MapResponse(body) == NoData <==> !Expected(body.fields["data"].fields).HasData()
    ensures MapResponse(body) != Raises
  {
    MapResponseSpec(body);
  }

  /** The sample response `{"data": {"followerCount": 500, "tagline": " Leading B2B ",
      "headquarter": {"country": "US"}}}` maps to the record with those three values and
      every other string attribute empty. */
  lemma SampleResponse(hq: map<string, Value>, info: map<string, Value>, body: Value)
    requires hq == map["country" := Str("US")]
    requires info == map["followerCount" := Int(500), "tagline" := Str(" Leading B2B "), "headquarter" := Obj(hq)]
    requires body == Obj(map["data" := Obj(info)])
    ensures MapResponse(body) == Found(Company(Int(500), "Leading B2B", "", "US", "", "", "", "", "", "", "", ""))
  {
    SampleExpected(info, hq);
    assert Truthy(Expected(info).followerCount);
    MapsToExpected(info, body);
  }

  /** An object body whose `data` is a well-typed object with data maps to that object's
      reference record, whatever other top-level keys it has. */
  lemma MapsToExpected(info: map<string, Value>, body: Value)
    requires WellTyped(info) && Expected(info).HasData()
    requires body.Obj? && "data" in body.fields && body.fields["data"] == Obj(info)
    ensures MapResponse(body) == Found(Expected(info))
  {
    MapResponseSpec(body);
  }

  lemma SampleExpected(info: map<string, Value>, hq: map<string, Value>)
    requires hq == map["country" := Str("US")]
    requires info == map["followerCount" := Int(500), "tagline" := Str(" Leading B2B "), "headquarter" := Obj(hq)]
    ensures WellTyped(info)
    ensures Expected(info) == Company(Int(500), "Leading B2B", "", "US", "", "", "", "", "", "", "", "")
  {
    SampleStrips();
    SampleLookups(info, hq);
  }

  lemma SampleStrips()
    ensures Strip(" Leading B2B ") == "Leading B2B"
    ensures Strip("US") == "US"
  {
    StripPadded(" ", "Leading B2B", " ");
    assert " " + "Leading B2B" + " " == " Leading B2B ";
    StripPadded("", "US", "");
    assert "" + "US" + "" == "US";
  }

  lemma SampleLookups(info: map<string, Value>, hq: map<string, Value>)
    requires hq == map["country" := Str("US")]
    requires info == map["followerCount" := Int(500), "tagline" := Str(" Leading B2B "), "headquarter" := Obj(hq)]
    ensures Get(info, "tagline") == Str(" Leading B2B ")
    ensures GetOr(info, "followerCount", Int(0)) == Int(500)
    ensures Headquarter(info) == hq
    ensures Get(hq, "country") == Str("US")
    ensures Get(info, "industry") == Null
    ensures Get(info, "companyName") == Null
    ensures Get(info, "url") == Null
    ensures Get(info, "websiteUrl") == Null
    ensures Get(info, "logoResolutionResult") == Null
    ensures Get(info, "croppedCoverImage") == Null
    ensures Get(hq, "city") == Null
    ensures Get(hq, "geographicArea") == Null
    ensures Get(hq, "postalCode") == Null
  {
  }

  /** `enrich_company_data` in terms of the reference description: it raises exactly on a
      decoded body that is not an object, or whose truthy `data` is not a well-typed object;
      a returned record is the reference record of `data` and has a truthy attribute. Failed
      requests and undecodable bodies therefore never raise. */
  lemma EnrichCompanyDataSpec(reply: ApiReply)
    ensures EnrichCompanyData(reply) == Raises <==>
            && reply.Body?
            && (|| !reply.json.Obj?
                || (&& Truthy(GetOr(reply.json.fields, "data", Obj(map[])))
                    && (!reply.json.fields["data"].Obj? || !WellTyped(reply.json.fields["data"].fields))))
    ensures EnrichCompanyData(reply).Found? ==>
            && reply.Body? && reply.json.Obj? && "data" in reply.json.fields && reply.json.fields["data"].Obj?
            && EnrichCompanyData(reply).record == Expected(reply.json.fields["data"].fields)
            && EnrichCompanyData(reply).record.HasData()
  {
    if reply.Body? {
      MapResponseSpec(reply.json);
      if MapResponse(reply.json).Found? {
        FoundIsExpected(reply.json);
      }
    }
  }

  /** A `headquarter` that is present must be an object: `null`, `""` or any other non-object
      value makes the location look-ups raise, while a missing one reads as `{}`. */
  lemma PresentHeadquarterIsObject(info: map<string, Value>)
    ensures ExtractFields(info).Some? ==> "headquarter" !in info || info["headquarter"].Obj?
  {
  }
}
