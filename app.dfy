/** app.py, the minimal router: exact district-name scans, no fuzzy
    matching, and two entry points with different keyword lists. */
module App {
  import opened Strings
  import opened Common
  import opened Matching
  import Legacy

  /** extract_location_from_command: the first GUJARAT_DISTRICTS key whose
      lower-case form occurs in the lower-cased command. */
  function ExtractLocation(command: string): (d: Option<District>)
    ensures d.Some? ==> Contains(Lower(command), Lower(Name(d.value)))
    ensures d.Some? ==> forall j :: 0 <= j < Position(d.value) ==> !NameIn(Lower(command))(Districts[j])
    ensures d.None? <==> forall j :: 0 <= j < |Districts| ==> !NameIn(Lower(command))(Districts[j])
  {
    match FirstHit(Districts, NameIn(Lower(command)))
    case Some(i) =>
      DistrictsDistinct();
      assert Districts[Position(Districts[i])] == Districts[i];
      assert GujaratDistricts[Position(Districts[i])] == GujaratDistricts[i];
      Some(Districts[i])
    case None => None
  }

  /** A linear scan over the districts that returns the first one passing
      `hit`; the callers pass NameIn(text), "named in the text". */
  function ScanNames(ds: seq<District>, hit: District -> bool): Option<District>
  {
    if ds == [] then None
    else if hit(ds[0]) then Some(ds[0])
    else ScanNames(ds[1..], hit)
  }

  /** The scan finds the first district passing the test. */
  lemma {:induction false} ScanNamesIsFirstHit(ds: seq<District>, hit: District -> bool)
    ensures ScanNames(ds, hit) == match FirstHit(ds, hit)
      case Some(i) => Some(ds[i])
      case None => None
  {
    if ds != [] && !hit(ds[0]) {
      ScanNamesIsFirstHit(ds[1..], hit);
      match FirstHit(ds[1..], hit)
      case None =>
      case Some(k) =>
        assert ds[k + 1] == ds[1..][k];
    }
  }

  /** extract_commodity_info_from_command: the scan on the lower-cased command. */
  function ExtractCommodityInfo(command: string): Option<District>
  {
    ScanNames(Districts, NameIn(Lower(command)))
  }

  /** Both extractors return the same district for every command. */
  lemma CommodityInfoIsLocation(command: string)
    ensures ExtractCommodityInfo(command) == ExtractLocation(command)
  {
    ScanNamesIsFirstHit(Districts, NameIn(Lower(command)));
  }

  /** test.py's commodity handler scans the same way: on lower-cased text it
      finds the same district. */
  lemma CommodityScansAgree(text: string)
    ensures Legacy.CommodityDistrict(Lower(text)) == ExtractCommodityInfo(text)
  {
    ScanNamesIsFirstHit(Districts, NameIn(Lower(text)));
  }

  /** Both extractors lower-case their input first, so lower-casing it
      beforehand changes nothing. */
  lemma ExtractorsIgnoreCase(text: string)
    ensures ExtractLocation(Lower(text)) == ExtractLocation(text)
    ensures ExtractCommodityInfo(Lower(text)) == ExtractCommodityInfo(text)
  {
    LowerIdempotent(text);
  }

  /** process_text's keyword lists. */
  const TextWeatherWords: seq<string> := ["weather", "temperature", "rain", "forecast", "climate"]
  const TextCommodityWords: seq<string> := ["price", "commodity", "market", "cost", "rate"]

  /** process_voice_command's keyword lists, without "climate" and "rate". */
  const VoiceWeatherWords: seq<string> := ["weather", "temperature", "rain", "forecast"]
  const VoiceCommodityWords: seq<string> := ["price", "commodity", "market", "cost"]

  /** What a request to either entry point is answered with. */
  datatype Reply =
    | Forecast(district: District)
    | SpecifyDistrict(forWeather: bool)
    | Prices(priced: Option<District>)
    | Chat

  predicate IsWeatherReply(r: Reply) {
    r.Forecast? || (r.SpecifyDistrict? && r.forWeather)
  }

  /** process_text: weather words first, then commodity words (with the
      district scan written inline), else chat. */
  function ProcessText(data: map<string, string>): (r: Reply)
    ensures (r.Forecast? || (r.SpecifyDistrict? && r.forWeather)) <==> AnyIn(TextWeatherWords, Lower(Get(data, "text", "")))
    ensures r.Prices? <==>
      !AnyIn(TextWeatherWords, Lower(Get(data, "text", ""))) && AnyIn(TextCommodityWords, Lower(Get(data, "text", "")))
    ensures r.Forecast? ==> ExtractLocation(Get(data, "text", "")) == Some(r.district)
    ensures r.Prices? ==> r.priced == ExtractCommodityInfo(Get(data, "text", ""))
    ensures r.SpecifyDistrict? ==> r.forWeather && ExtractLocation(Get(data, "text", "")).None?
    ensures r == Chat <==>
      !AnyIn(TextWeatherWords, Lower(Get(data, "text", ""))) && !AnyIn(TextCommodityWords, Lower(Get(data, "text", "")))
  {
    var text := Lower(Get(data, "text", ""));
    ExtractorsIgnoreCase(Get(data, "text", ""));
    if AnyIn(TextWeatherWords, text) then
      match ExtractLocation(text)
      case Some(d) => Forecast(d)
      case None => SpecifyDistrict(true)
    else if AnyIn(TextCommodityWords, text) then
      Prices(ScanNames(Districts, NameIn(text)))
    else
      Chat
  }

  /** process_voice_command: the narrower lists; a commodity command without
      a district asks for one. */
  function ProcessVoiceCommand(data: map<string, string>): (r: Reply)
    ensures (r.Forecast? || (r.SpecifyDistrict? && r.forWeather)) <==> AnyIn(VoiceWeatherWords, Lower(Get(data, "command", "")))
    ensures (r.Prices? || (r.SpecifyDistrict? && !r.forWeather)) <==>
      !AnyIn(VoiceWeatherWords, Lower(Get(data, "command", ""))) && AnyIn(VoiceCommodityWords, Lower(Get(data, "command", "")))
    ensures r.Forecast? ==> ExtractLocation(Get(data, "command", "")) == Some(r.district)
    ensures r.Prices? ==> r.priced.Some? && r.priced == ExtractCommodityInfo(Get(data, "command", ""))
    ensures r.SpecifyDistrict? && r.forWeather ==> ExtractLocation(Get(data, "command", "")).None?
    ensures r.SpecifyDistrict? && !r.forWeather ==> ExtractCommodityInfo(Get(data, "command", "")).None?
    ensures r == Chat <==>
      !AnyIn(VoiceWeatherWords, Lower(Get(data, "command", ""))) && !AnyIn(VoiceCommodityWords, Lower(Get(data, "command", "")))
  {
    var command := Lower(Get(data, "command", ""));
    ExtractorsIgnoreCase(Get(data, "command", ""));
    if AnyIn(VoiceWeatherWords, command) then
      var location := ExtractLocation(command);
      if location.Some? then Forecast(location.value) else SpecifyDistrict(true)
    else if AnyIn(VoiceCommodityWords, command) then
      var priced := ExtractCommodityInfo(command);
      if priced.Some? then Prices(priced) else SpecifyDistrict(false)
    else
      Chat
  }

  /** Text with both a weather word and a commodity word is a weather request. */
  lemma WeatherBeforeCommodity(data: map<string, string>, w: int, c: int)
    requires 0 <= w < |TextWeatherWords| && 0 <= c < |TextCommodityWords|
    requires Contains(Lower(Get(data, "text", "")), TextWeatherWords[w])
    requires Contains(Lower(Get(data, "text", "")), TextCommodityWords[c])
    ensures IsWeatherReply(ProcessText(data))
  {
    AnyInWitness(TextWeatherWords, Lower(Get(data, "text", "")), w);
  }

  /** "climate" is only on process_text's weather list. */
  lemma ClimateKeywords()
    ensures AnyIn(TextWeatherWords, "climate")
    ensures !AnyIn(VoiceWeatherWords, "climate") && !AnyIn(VoiceCommodityWords, "climate")
  {
    ContainsSelf("climate");
    AnyInWitness(TextWeatherWords, "climate", 4);
    ClimateNotVoiceWeather();
    ClimateNotVoiceCommodity();
  }

  /** The letters of "climate". */
  lemma ClimateLetters()
    ensures forall ch :: ch in "climate" ==> ch == 'c' || ch == 'l' || ch == 'i' || ch == 'm' || ch == 'a' || ch == 't' || ch == 'e'
  {
  }

  lemma ClimateNotVoiceWeather()
    ensures !AnyIn(VoiceWeatherWords, "climate")
  {
    var t := "climate";
    ClimateLetters();
    NotContainsByChar(t, "weather", 'w');
    NotContainsByChar(t, "temperature", 'p');
    NotContainsByChar(t, "rain", 'r');
    NotContainsByChar(t, "forecast", 'f');
    AnyInIff(VoiceWeatherWords, t);
  }

  lemma ClimateNotVoiceCommodity()
    ensures !AnyIn(VoiceCommodityWords, "climate")
  {
    var t := "climate";
    ClimateLetters();
    NotContainsByChar(t, "price", 'p');
    NotContainsByChar(t, "commodity", 'o');
    NotContainsByChar(t, "market", 'k');
    NotContainsByChar(t, "cost", 'o');
    AnyInIff(VoiceCommodityWords, t);
  }

  /** "climate" is a weather word for typed text but not for a voice command,
      where it falls through to chat. */
  lemma ClimateOnlyInText()
    ensures IsWeatherReply(ProcessText(map["text" := "climate"]))
    ensures ProcessVoiceCommand(map["command" := "climate"]) == Chat
  {
    LowerOfLowerCase("climate");
    ClimateKeywords();
  }

  /** "rate" is only on process_text's commodity list. */
  lemma RateKeywords()
    ensures !AnyIn(TextWeatherWords, "rate") && AnyIn(TextCommodityWords, "rate")
    ensures !AnyIn(VoiceWeatherWords, "rate") && !AnyIn(VoiceCommodityWords, "rate")
  {
    ContainsSelf("rate");
    AnyInWitness(TextCommodityWords, "rate", 4);
    RateNotWeather();
    RateNotVoiceCommodity();
  }

  /** The letters of "rate". */
  lemma RateLetters()
    ensures forall ch :: ch in "rate" ==> ch == 'r' || ch == 'a' || ch == 't' || ch == 'e'
  {
  }

  lemma RateNotWeather()
    ensures !AnyIn(TextWeatherWords, "rate") && !AnyIn(VoiceWeatherWords, "rate")
  {
    var t := "rate";
    RateLetters();
    NotContainsByChar(t, "weather", 'w');
    NotContainsByChar(t, "temperature", 'p');
    NotContainsByChar(t, "rain", 'i');
    NotContainsByChar(t, "forecast", 'f');
    NotContainsByChar(t, "climate", 'c');
    AnyInIff(TextWeatherWords, t);
    AnyInIff(VoiceWeatherWords, t);
  }

  lemma RateNotVoiceCommodity()
    ensures !AnyIn(VoiceCommodityWords, "rate")
  {
    var t := "rate";
    RateLetters();
    NotContainsByChar(t, "price", 'p');
    NotContainsByChar(t, "commodity", 'o');
    NotContainsByChar(t, "market", 'm');
    NotContainsByChar(t, "cost", 'o');
    AnyInIff(VoiceCommodityWords, t);
  }

  /** "rate" asks for prices in typed text but is chat as a voice command. */
  lemma RateOnlyInText()
    ensures ProcessText(map["text" := "rate"]).Prices?
    ensures ProcessVoiceCommand(map["command" := "rate"]) == Chat
  {
    LowerOfLowerCase("rate");
    RateKeywords();
  }
}
