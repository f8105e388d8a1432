/** What the routers of api.py and test.py share: the three-tier weather
    reply, and the shape of a request and of the handler it reaches. */
module Routing {
  import opened Common
  import opened Matching

  datatype WeatherReply =
    | Forecast(district: District, didYouMean: bool)
    | Clarify(district: District)
    | NotFound(suggestions: seq<string>)

  /** The confidence a resolution must exceed to be offered for confirmation. */
  const ClarifyAbove: real := 0.4

  /** handle_weather_query's tiers: a forecast from `forecastFrom` on,
      prefixed by "did you mean" below `exactFrom`; a request to confirm the
      district above 0.4; otherwise the popular districts. */
  function TieredReply(info: Option<LocationInfo>, forecastFrom: real, exactFrom: real, popular: seq<string>)
    : (reply: WeatherReply)
    ensures reply.Forecast? <==> info.Some? && info.value.confidence >= forecastFrom
    ensures reply.Clarify? <==> info.Some? && ClarifyAbove < info.value.confidence < forecastFrom
    ensures !reply.NotFound? ==> reply.district == info.value.district
    ensures reply.Forecast? ==> (reply.didYouMean <==> info.value.confidence < exactFrom)
    ensures reply.NotFound? ==> reply.suggestions == popular
  {
    if info.Some? && info.value.confidence >= forecastFrom then
      Forecast(info.value.district, info.value.confidence < exactFrom)
    else if info.Some? && info.value.confidence > ClarifyAbove then
      Clarify(info.value.district)
    else
      NotFound(popular)
  }

  /** How sure a reply is: not found, asked to confirm, forecast with a
      "did you mean", plain forecast. */
  function Certainty(reply: WeatherReply): nat
  {
    match reply
    case NotFound(_) => 0
    case Clarify(_) => 1
    case Forecast(_, didYouMean) => if didYouMean then 2 else 3
  }

  /** A more confident resolution never gets a less certain reply. */
  lemma TieredReplyMonotone(a: LocationInfo, b: LocationInfo, forecastFrom: real, exactFrom: real, popular: seq<string>)
    requires a.confidence <= b.confidence
    ensures Certainty(TieredReply(Some(a), forecastFrom, exactFrom, popular))
      <= Certainty(TieredReply(Some(b), forecastFrom, exactFrom, popular))
  {
  }

  /** When every resolution is above the 0.4 floor, the reply is "not found"
      exactly when no district was resolved. */
  lemma NotFoundIffUnresolved(info: Option<LocationInfo>, forecastFrom: real, exactFrom: real, popular: seq<string>)
    requires info.Some? ==> info.value.confidence > ClarifyAbove
    ensures TieredReply(info, forecastFrom, exactFrom, popular).NotFound? <==> info.None?
  {
  }

  /** One request to /smart_assistant: its form or JSON fields, and whether
      a file was uploaded. */
  datatype Request = Request(data: map<string, string>, hasFile: bool)

  datatype Route =
    | DiseaseDetection
    | MissingInput
    | Weather(reply: WeatherReply)
    | Commodity(district: Option<District>)
    | Chat(allowed: bool)

  /** The normalised language and the handler the request reaches. */
  datatype Dispatch = Dispatch(language: string, route: Route)

  /** The 400 status of a request with neither an image nor text. */
  const MissingInputStatus: nat := 400
}
