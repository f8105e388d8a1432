/** api.py, the newest router: resolving a spoken or typed place name to a
    district, classifying the request, and choosing the reply. */
module Api {
  import opened Strings
  import opened Ranking
  import opened Common
  import opened Matching
  import opened Routing

  /** DISTRICT_NAME_VARIATIONS, in insertion order, each key once: the
      English spellings (api.py:86-126). */
  const EnglishVariations: seq<Row> := [
    ("ahmedabad", Ahmedabad),
    ("amdavad", Ahmedabad),
    ("ahmadabad", Ahmedabad),
    ("surat", Surat),
    ("vadodara", Vadodara),
    ("baroda", Vadodara),
    ("rajkot", Rajkot),
    ("rajcot", Rajkot),
    ("gandhinagar", Gandhinagar),
    ("jamnagar", Jamnagar),
    ("bhavnagar", Bhavnagar),
    ("junagadh", Junagadh),
    ("mehsana", Mehsana),
    ("patan", Patan),
    ("kutch", Kutch),
    ("kachchh", Kutch),
    ("kuch", Kutch),
    ("anand", Anand),
    ("kheda", Kheda),
    ("bharuch", Bharuch),
    ("narmada", Narmada),
    ("dahod", Dahod),
    ("panchmahal", Panchmahal),
    ("sabarkantha", Sabarkantha),
    ("banaskantha", Banaskantha),
    ("amreli", Amreli),
    ("porbandar", Porbandar),
    ("surendranagar", Surendranagar),
    ("morbi", Morbi),
    ("botad", Botad),
    ("gir somnath", GirSomnath),
    ("devbhoomi dwarka", DevbhoomiDwarka),
    ("navsari", Navsari),
    ("valsad", Valsad),
    ("tapi", Tapi),
    ("dang", Dang),
    ("aravalli", Aravalli),
    ("mahisagar", Mahisagar),
    ("chhota udaipur", ChhotaUdaipur)
  ]

  /** The Gujarati-script rows (api.py:129-161), kept exactly as the file
      spells them. */
  const GujaratiVariations: seq<Row> := [
    ("\U{E0}\U{AA}\U{2026}\U{E0}\U{AA}\U{AE}\U{E0}\U{AA}\U{A6}\U{E0}\U{AA}\U{BE}\U{E0}\U{AA}\U{B5}\U{E0}\U{AA}\U{BE}\U{E0}\U{AA}\U{A6}", Ahmedabad),
    ("\U{E0}\U{AA}\U{B8}\U{E0}\U{AB}\U{E0}\U{AA}\U{B0}\U{E0}\U{AA}\U{A4}", Surat),
    ("\U{E0}\U{AA}\U{B5}\U{E0}\U{AA}\U{A1}\U{E0}\U{AB}\U{2039}\U{E0}\U{AA}\U{A6}\U{E0}\U{AA}\U{B0}\U{E0}\U{AA}\U{BE}", Vadodara),
    ("\U{E0}\U{AA}\U{B0}\U{E0}\U{AA}\U{BE}\U{E0}\U{AA}\U{153}\U{E0}\U{AA}\U{2022}\U{E0}\U{AB}\U{2039}\U{E0}\U{AA}\U{178}", Rajkot),
    ("\U{E0}\U{AA}\U{2014}\U{E0}\U{AA}\U{BE}\U{E0}\U{AA}\U{201A}\U{E0}\U{AA}\U{A7}\U{E0}\U{AB}\U{20AC}\U{E0}\U{AA}\U{A8}\U{E0}\U{AA}\U{2014}\U{E0}\U{AA}\U{B0}", Gandhinagar),
    ("\U{E0}\U{AA}\U{153}\U{E0}\U{AA}\U{BE}\U{E0}\U{AA}\U{AE}\U{E0}\U{AA}\U{A8}\U{E0}\U{AA}\U{2014}\U{E0}\U{AA}\U{B0}", Jamnagar),
    ("\U{E0}\U{AA}\U{AD}\U{E0}\U{AA}\U{BE}\U{E0}\U{AA}\U{B5}\U{E0}\U{AA}\U{A8}\U{E0}\U{AA}\U{2014}\U{E0}\U{AA}\U{B0}", Bhavnagar),
    ("\U{E0}\U{AA}\U{153}\U{E0}\U{AB}\U{201A}\U{E0}\U{AA}\U{A8}\U{E0}\U{AA}\U{BE}\U{E0}\U{AA}\U{2014}\U{E0}\U{AA}\U{A2}", Junagadh),
    ("\U{E0}\U{AA}\U{AE}\U{E0}\U{AA}\U{B9}\U{E0}\U{AB}\U{2021}\U{E0}\U{AA}\U{B8}\U{E0}\U{AA}\U{BE}\U{E0}\U{AA}\U{A3}\U{E0}\U{AA}\U{BE}", Mehsana),
    ("\U{E0}\U{AA}\U{AA}\U{E0}\U{AA}\U{BE}\U{E0}\U{AA}\U{178}\U{E0}\U{AA}\U{A3}", Patan),
    ("\U{E0}\U{AA}\U{2022}\U{E0}\U{AA}\U{161}\U{E0}\U{AB}\U{E0}\U{AA}\U{203A}", Kutch),
    ("\U{E0}\U{AA}\U{2020}\U{E0}\U{AA}\U{A3}\U{E0}\U{AA}\U{201A}\U{E0}\U{AA}\U{A6}", Anand),
    ("\U{E0}\U{AA}\U{2013}\U{E0}\U{AB}\U{2021}\U{E0}\U{AA}\U{A1}\U{E0}\U{AA}\U{BE}", Kheda),
    ("\U{E0}\U{AA}\U{AD}\U{E0}\U{AA}\U{B0}\U{E0}\U{AB}\U{201A}\U{E0}\U{AA}\U{161}", Bharuch),
    ("\U{E0}\U{AA}\U{A8}\U{E0}\U{AA}\U{B0}\U{E0}\U{AB}\U{E0}\U{AA}\U{AE}\U{E0}\U{AA}\U{A6}\U{E0}\U{AA}\U{BE}", Narmada),
    ("\U{E0}\U{AA}\U{A6}\U{E0}\U{AA}\U{BE}\U{E0}\U{AA}\U{B9}\U{E0}\U{AB}\U{2039}\U{E0}\U{AA}\U{A6}", Dahod),
    ("\U{E0}\U{AA}\U{AA}\U{E0}\U{AA}\U{201A}\U{E0}\U{AA}\U{161}\U{E0}\U{AA}\U{AE}\U{E0}\U{AA}\U{B9}\U{E0}\U{AA}\U{BE}\U{E0}\U{AA}\U{B2}", Panchmahal),
    ("\U{E0}\U{AA}\U{B8}\U{E0}\U{AA}\U{BE}\U{E0}\U{AA}\U{AC}\U{E0}\U{AA}\U{B0}\U{E0}\U{AA}\U{2022}\U{E0}\U{AA}\U{BE}\U{E0}\U{AA}\U{201A}\U{E0}\U{AA}\U{A0}\U{E0}\U{AA}\U{BE}", Sabarkantha),
    ("\U{E0}\U{AA}\U{AC}\U{E0}\U{AA}\U{A8}\U{E0}\U{AA}\U{BE}\U{E0}\U{AA}\U{B8}\U{E0}\U{AA}\U{2022}\U{E0}\U{AA}\U{BE}\U{E0}\U{AA}\U{201A}\U{E0}\U{AA}\U{A0}\U{E0}\U{AA}\U{BE}", Banaskantha),
    ("\U{E0}\U{AA}\U{2026}\U{E0}\U{AA}\U{AE}\U{E0}\U{AA}\U{B0}\U{E0}\U{AB}\U{2021}\U{E0}\U{AA}\U{B2}\U{E0}\U{AB}\U{20AC}", Amreli),
    ("\U{E0}\U{AA}\U{AA}\U{E0}\U{AB}\U{2039}\U{E0}\U{AA}\U{B0}\U{E0}\U{AA}\U{AC}\U{E0}\U{AA}\U{201A}\U{E0}\U{AA}\U{A6}\U{E0}\U{AA}\U{B0}", Porbandar),
    ("\U{E0}\U{AA}\U{B8}\U{E0}\U{AB}\U{E0}\U{AA}\U{B0}\U{E0}\U{AB}\U{2021}\U{E0}\U{AA}\U{A8}\U{E0}\U{AB}\U{E0}\U{AA}\U{A6}\U{E0}\U{AB}\U{E0}\U{AA}\U{B0}\U{E0}\U{AA}\U{A8}\U{E0}\U{AA}\U{2014}\U{E0}\U{AA}\U{B0}", Surendranagar),
    ("\U{E0}\U{AA}\U{AE}\U{E0}\U{AB}\U{2039}\U{E0}\U{AA}\U{B0}\U{E0}\U{AA}\U{AC}\U{E0}\U{AB}\U{20AC}", Morbi),
    ("\U{E0}\U{AA}\U{AC}\U{E0}\U{AB}\U{2039}\U{E0}\U{AA}\U{178}\U{E0}\U{AA}\U{BE}\U{E0}\U{AA}\U{A6}", Botad),
    ("\U{E0}\U{AA}\U{2014}\U{E0}\U{AB}\U{20AC}\U{E0}\U{AA}\U{B0} \U{E0}\U{AA}\U{B8}\U{E0}\U{AB}\U{2039}\U{E0}\U{AA}\U{AE}\U{E0}\U{AA}\U{A8}\U{E0}\U{AA}\U{BE}\U{E0}\U{AA}\U{A5}", GirSomnath),
    ("\U{E0}\U{AA}\U{A6}\U{E0}\U{AB}\U{2021}\U{E0}\U{AA}\U{B5}\U{E0}\U{AA}\U{AD}\U{E0}\U{AB}\U{201A}\U{E0}\U{AA}\U{AE}\U{E0}\U{AA}\U{BF} \U{E0}\U{AA}\U{A6}\U{E0}\U{AB}\U{E0}\U{AA}\U{B5}\U{E0}\U{AA}\U{BE}\U{E0}\U{AA}\U{B0}\U{E0}\U{AA}\U{2022}\U{E0}\U{AA}\U{BE}", DevbhoomiDwarka),
    ("\U{E0}\U{AA}\U{A8}\U{E0}\U{AA}\U{B5}\U{E0}\U{AA}\U{B8}\U{E0}\U{AA}\U{BE}\U{E0}\U{AA}\U{B0}\U{E0}\U{AB}\U{20AC}", Navsari),
    ("\U{E0}\U{AA}\U{B5}\U{E0}\U{AA}\U{B2}\U{E0}\U{AA}\U{B8}\U{E0}\U{AA}\U{BE}\U{E0}\U{AA}\U{A1}", Valsad),
    ("\U{E0}\U{AA}\U{A4}\U{E0}\U{AA}\U{BE}\U{E0}\U{AA}\U{AA}\U{E0}\U{AB}\U{20AC}", Tapi),
    ("\U{E0}\U{AA}\U{A6}\U{E0}\U{AA}\U{BE}\U{E0}\U{AA}\U{201A}\U{E0}\U{AA}\U{2014}", Dang),
    ("\U{E0}\U{AA}\U{2026}\U{E0}\U{AA}\U{B0}\U{E0}\U{AA}\U{BE}\U{E0}\U{AA}\U{B5}\U{E0}\U{AA}\U{B2}\U{E0}\U{AB}\U{20AC}", Aravalli),
    ("\U{E0}\U{AA}\U{AE}\U{E0}\U{AA}\U{B9}\U{E0}\U{AA}\U{BF}\U{E0}\U{AA}\U{B8}\U{E0}\U{AA}\U{BE}\U{E0}\U{AA}\U{2014}\U{E0}\U{AA}\U{B0}", Mahisagar),
    ("\U{E0}\U{AA}\U{203A}\U{E0}\U{AB}\U{2039}\U{E0}\U{AA}\U{178}\U{E0}\U{AA}\U{BE} \U{E0}\U{AA}\U{2030}\U{E0}\U{AA}\U{A6}\U{E0}\U{AA}\U{AF}\U{E0}\U{AA}\U{AA}\U{E0}\U{AB}\U{E0}\U{AA}\U{B0}", ChhotaUdaipur)
  ]

  /** The Devanagari-script rows (api.py:164-187), kept as the file spells them. */
  const HindiVariations: seq<Row> := [
    ("\U{E0}\U{A4}\U{2026}\U{E0}\U{A4}\U{B9}\U{E0}\U{A4}\U{AE}\U{E0}\U{A4}\U{A6}\U{E0}\U{A4}\U{BE}\U{E0}\U{A4}\U{AC}\U{E0}\U{A4}\U{BE}\U{E0}\U{A4}\U{A6}", Ahmedabad),
    ("\U{E0}\U{A4}\U{B8}\U{E0}\U{A5}\U{201A}\U{E0}\U{A4}\U{B0}\U{E0}\U{A4}\U{A4}", Surat),
    ("\U{E0}\U{A4}\U{B5}\U{E0}\U{A4}\U{A1}\U{E0}\U{A5}\U{2039}\U{E0}\U{A4}\U{A6}\U{E0}\U{A4}\U{B0}\U{E0}\U{A4}\U{BE}", Vadodara),
    ("\U{E0}\U{A4}\U{B0}\U{E0}\U{A4}\U{BE}\U{E0}\U{A4}\U{153}\U{E0}\U{A4}\U{2022}\U{E0}\U{A5}\U{2039}\U{E0}\U{A4}\U{178}", Rajkot),
    ("\U{E0}\U{A4}\U{2014}\U{E0}\U{A4}\U{BE}\U{E0}\U{A4}\U{201A}\U{E0}\U{A4}\U{A7}\U{E0}\U{A5}\U{20AC}\U{E0}\U{A4}\U{A8}\U{E0}\U{A4}\U{2014}\U{E0}\U{A4}\U{B0}", Gandhinagar),
    ("\U{E0}\U{A4}\U{153}\U{E0}\U{A4}\U{BE}\U{E0}\U{A4}\U{AE}\U{E0}\U{A4}\U{A8}\U{E0}\U{A4}\U{2014}\U{E0}\U{A4}\U{B0}", Jamnagar),
    ("\U{E0}\U{A4}\U{AD}\U{E0}\U{A4}\U{BE}\U{E0}\U{A4}\U{B5}\U{E0}\U{A4}\U{A8}\U{E0}\U{A4}\U{2014}\U{E0}\U{A4}\U{B0}", Bhavnagar),
    ("\U{E0}\U{A4}\U{153}\U{E0}\U{A5}\U{201A}\U{E0}\U{A4}\U{A8}\U{E0}\U{A4}\U{BE}\U{E0}\U{A4}\U{2014}\U{E0}\U{A4}\U{A2}", Junagadh),
    ("\U{E0}\U{A4}\U{AE}\U{E0}\U{A5}\U{2021}\U{E0}\U{A4}\U{B9}\U{E0}\U{A4}\U{B8}\U{E0}\U{A4}\U{BE}\U{E0}\U{A4}\U{A8}\U{E0}\U{A4}\U{BE}", Mehsana),
    ("\U{E0}\U{A4}\U{AA}\U{E0}\U{A4}\U{BE}\U{E0}\U{A4}\U{178}\U{E0}\U{A4}\U{A3}", Patan),
    ("\U{E0}\U{A4}\U{2022}\U{E0}\U{A4}\U{161}\U{E0}\U{A5}\U{E0}\U{A4}\U{203A}", Kutch),
    ("\U{E0}\U{A4}\U{2020}\U{E0}\U{A4}\U{A3}\U{E0}\U{A4}\U{201A}\U{E0}\U{A4}\U{A6}", Anand),
    ("\U{E0}\U{A4}\U{2013}\U{E0}\U{A5}\U{2021}\U{E0}\U{A4}\U{A1}\U{E0}\U{A4}\U{BE}", Kheda),
    ("\U{E0}\U{A4}\U{AD}\U{E0}\U{A4}\U{B0}\U{E0}\U{A5}\U{201A}\U{E0}\U{A4}\U{161}", Bharuch),
    ("\U{E0}\U{A4}\U{A8}\U{E0}\U{A4}\U{B0}\U{E0}\U{A5}\U{E0}\U{A4}\U{AE}\U{E0}\U{A4}\U{A6}\U{E0}\U{A4}\U{BE}", Narmada),
    ("\U{E0}\U{A4}\U{A6}\U{E0}\U{A4}\U{BE}\U{E0}\U{A4}\U{B9}\U{E0}\U{A5}\U{2039}\U{E0}\U{A4}\U{A6}", Dahod),
    ("\U{E0}\U{A4}\U{AA}\U{E0}\U{A4}\U{201A}\U{E0}\U{A4}\U{161}\U{E0}\U{A4}\U{AE}\U{E0}\U{A4}\U{B9}\U{E0}\U{A4}\U{BE}\U{E0}\U{A4}\U{B2}", Panchmahal),
    ("\U{E0}\U{A4}\U{B8}\U{E0}\U{A4}\U{BE}\U{E0}\U{A4}\U{AC}\U{E0}\U{A4}\U{B0}\U{E0}\U{A4}\U{2022}\U{E0}\U{A4}\U{BE}\U{E0}\U{A4}\U{201A}\U{E0}\U{A4}\U{A0}\U{E0}\U{A4}\U{BE}", Sabarkantha),
    ("\U{E0}\U{A4}\U{AC}\U{E0}\U{A4}\U{A8}\U{E0}\U{A4}\U{BE}\U{E0}\U{A4}\U{B8}\U{E0}\U{A4}\U{2022}\U{E0}\U{A4}\U{BE}\U{E0}\U{A4}\U{201A}\U{E0}\U{A4}\U{A0}\U{E0}\U{A4}\U{BE}", Banaskantha),
    ("\U{E0}\U{A4}\U{2026}\U{E0}\U{A4}\U{AE}\U{E0}\U{A4}\U{B0}\U{E0}\U{A5}\U{2021}\U{E0}\U{A4}\U{B2}\U{E0}\U{A5}\U{20AC}", Amreli),
    ("\U{E0}\U{A4}\U{AA}\U{E0}\U{A5}\U{2039}\U{E0}\U{A4}\U{B0}\U{E0}\U{A4}\U{AC}\U{E0}\U{A4}\U{201A}\U{E0}\U{A4}\U{A6}\U{E0}\U{A4}\U{B0}", Porbandar),
    ("\U{E0}\U{A4}\U{B8}\U{E0}\U{A5}\U{E0}\U{A4}\U{B0}\U{E0}\U{A5}\U{2021}\U{E0}\U{A4}\U{201A}\U{E0}\U{A4}\U{A6}\U{E0}\U{A5}\U{E0}\U{A4}\U{B0}\U{E0}\U{A4}\U{A8}\U{E0}\U{A4}\U{2014}\U{E0}\U{A4}\U{B0}", Surendranagar),
    ("\U{E0}\U{A4}\U{AE}\U{E0}\U{A5}\U{2039}\U{E0}\U{A4}\U{B0}\U{E0}\U{A4}\U{AC}\U{E0}\U{A5}\U{20AC}", Morbi),
    ("\U{E0}\U{A4}\U{AC}\U{E0}\U{A5}\U{2039}\U{E0}\U{A4}\U{178}\U{E0}\U{A4}\U{BE}\U{E0}\U{A4}\U{A6}", Botad)
  ]

  const DistrictNameVariations: seq<Row> := EnglishVariations + GujaratiVariations + HindiVariations

  /** No key of the table is empty. */
  lemma VariationKeysNonEmpty()
    ensures forall j :: 0 <= j < |DistrictNameVariations| ==> DistrictNameVariations[j].0 != ""
  {
    assert forall j :: 0 <= j < |EnglishVariations| ==> EnglishVariations[j].0 != "";
    assert forall j :: 0 <= j < |GujaratiVariations| ==> GujaratiVariations[j].0 != "";
    assert forall j :: 0 <= j < |HindiVariations| ==> HindiVariations[j].0 != "";
  }

  /** The rows the phonetic fallback and the lemmas about it use. */
  lemma KnownVariations()
    ensures DistrictNameVariations[0] == ("ahmedabad", Ahmedabad)
    ensures DistrictNameVariations[3] == ("surat", Surat)
    ensures DistrictNameVariations[4] == ("vadodara", Vadodara)
    ensures DistrictNameVariations[5] == ("baroda", Vadodara)
    ensures DistrictNameVariations[6] == ("rajkot", Rajkot)
    ensures DistrictNameVariations[7] == ("rajcot", Rajkot)
  {
    KnownVariationsFront();
    KnownVariationsBack();
  }

  lemma KnownVariationsFront()
    ensures DistrictNameVariations[0] == ("ahmedabad", Ahmedabad)
    ensures DistrictNameVariations[3] == ("surat", Surat)
    ensures DistrictNameVariations[4] == ("vadodara", Vadodara)
  {
  }

  lemma KnownVariationsBack()
    ensures DistrictNameVariations[5] == ("baroda", Vadodara)
    ensures DistrictNameVariations[6] == ("rajkot", Rajkot)
    ensures DistrictNameVariations[7] == ("rajcot", Rajkot)
  {
  }

  /** The containment test of the second stage: the variation occurs in the
      input, or the input occurs in the variation. */
  function ContainmentHit(text: string): Row -> bool
  {
    (row: Row) => Contains(text, row.0) || Contains(row.0, text)
  }

  /** find_closest_district over a table of variations: an exact key, else
      the first variation that contains or is contained in the input (0.9
      when the variation occurs in the input, 0.8 otherwise), else the best
      fuzzy match at or above the threshold. */
  function ClosestDistrict(variations: seq<Row>, userInput: string, threshold: real, ratio: Ratio): (r: Option<LocationInfo>)
    ensures r.Some? ==> r.value.matchedText.Some?
    ensures r.Some? ==> r.value.confidence in {1.0, 0.9, 0.8} || threshold <= r.value.confidence <= 1.0
  {
    var u := LowerStrip(userInput);
    var exact := ExactMatch(variations, u);
    if exact.Some? then exact
    else
      var contained := ContainmentMatch(variations, u);
      if contained.Some? then contained
      else
        var best := FuzzyBest(variations, ScoreOf(ratio, u), threshold);
        if best.Some? then
          FuzzyBestSpec(variations, ScoreOf(ratio, u), threshold);
          best
        else None
  }

  /** The first pass: the first key equal to the cleaned input, with full
      confidence and the input as matched text. */
  function ExactMatch(variations: seq<Row>, u: string): (r: Option<LocationInfo>)
    ensures r.Some? ==> r.value == LocationInfo(r.value.district, 1.0, Some(u))
  {
    match FirstHit(variations, KeyIs(u))
    case Some(i) => Some(LocationInfo(variations[i].1, 1.0, Some(u)))
    case None => None
  }

  /** The second pass: the first variation that occurs in the cleaned input
      (0.9) or in which the input occurs (0.8). */
  function ContainmentMatch(variations: seq<Row>, u: string): (r: Option<LocationInfo>)
    ensures r.Some? ==> r.value.matchedText.Some? && r.value.confidence in {0.9, 0.8}
  {
    match FirstHit(variations, ContainmentHit(u))
    case Some(i) =>
      var (variation, district) := variations[i];
      Some(LocationInfo(district, if Contains(u, variation) then 0.9 else 0.8, Some(variation)))
    case None => None
  }

  /** The second pass as written: a loop that returns on its first hit. */
  method ScanContainment(variations: seq<Row>, u: string) returns (r: Option<LocationInfo>)
    ensures r == ContainmentMatch(variations, u)
  {
    var i := 0;
    while i < |variations|
      invariant 0 <= i <= |variations|
      invariant forall j :: 0 <= j < i ==> !ContainmentHit(u)(variations[j])
    {
      var (variation, district) := variations[i];
      if Contains(u, variation) || Contains(variation, u) {
        assert ContainmentHit(u)(variations[i]);
        var confidence := if Contains(u, variation) then 0.9 else 0.8;
        return Some(LocationInfo(district, confidence, Some(variation)));
      }
      i := i + 1;
    }
    return None;
  }

  /** The fuzzy loop as written: every variation scoring at least the
      threshold is appended, in table order. */
  method CollectMatches(variations: seq<Row>, u: string, threshold: real, ratio: Ratio)
    returns (bestMatches: seq<LocationInfo>)
    ensures bestMatches == Candidates(variations, ScoreOf(ratio, u), threshold)
  {
    bestMatches := [];
    var i := 0;
    while i < |variations|
      invariant 0 <= i <= |variations|
      invariant bestMatches == Candidates(variations[..i], ScoreOf(ratio, u), threshold)
    {
      var (variation, district) := variations[i];
      var fullSimilarity := Similarity(ratio, u, variation);
      var words := Split(u);
      var maxWordSimilarity := MaxWordSimilarity(ratio, words, variation);
      var bestSimilarity := if fullSimilarity >= maxWordSimilarity then fullSimilarity else maxWordSimilarity;
      if bestSimilarity >= threshold {
        bestMatches := bestMatches + [LocationInfo(district, bestSimilarity, Some(variation))];
      }
      CandidatesSnoc(variations[..i], variations[i], ScoreOf(ratio, u), threshold);
      assert variations[..i + 1] == variations[..i] + [variations[i]];
      i := i + 1;
    }
    assert variations[..i] == variations;
  }

  /** find_closest_district as written: the exact pass, the containment
      scan, then the fuzzy loop and a stable sort. The table is
      DistrictNameVariations at every call. */
  method FindClosestDistrict(variations: seq<Row>, userInput: string, threshold: real, ratio: Ratio)
    returns (r: Option<LocationInfo>)
    ensures r == ClosestDistrict(variations, userInput, threshold, ratio)
  {
    var userInputLower := LowerStrip(userInput);
    var exact := FirstHit(variations, KeyIs(userInputLower));
    if exact.Some? {
      return Some(LocationInfo(variations[exact.value].1, 1.0, Some(userInputLower)));
    }
    r := ScanContainment(variations, userInputLower);
    if r.Some? {
      return;
    }
    var bestMatches := CollectMatches(variations, userInputLower, threshold, ratio);
    if bestMatches != [] {
      bestMatches := SortDescending(bestMatches, Confidence);
      return Some(bestMatches[0]);
    }
    return None;
  }

  /** Stage one: an input equal to a key resolves to that key's district
      with full confidence. */
  lemma ExactVariationWins(variations: seq<Row>, userInput: string, threshold: real, ratio: Ratio, i: int)
    requires 0 <= i < |variations|
    requires variations[i].0 == LowerStrip(userInput)
    requires forall j :: 0 <= j < i ==> variations[j].0 != variations[i].0
    ensures ClosestDistrict(variations, userInput, threshold, ratio)
      == Some(LocationInfo(variations[i].1, 1.0, Some(variations[i].0)))
  {
    assert KeyIs(LowerStrip(userInput))(variations[i]);
  }

  /** Stage two: when no key equals the input, the first variation in table
      order that contains or is contained in the input wins, with 0.9 exactly
      when the variation occurs in the input. */
  lemma ContainedVariationWins(variations: seq<Row>, userInput: string, threshold: real, ratio: Ratio, i: int)
    requires 0 <= i < |variations|
    requires forall j :: 0 <= j < |variations| ==> variations[j].0 != LowerStrip(userInput)
    requires ContainmentHit(LowerStrip(userInput))(variations[i])
    requires forall j :: 0 <= j < i ==> !ContainmentHit(LowerStrip(userInput))(variations[j])
    ensures ClosestDistrict(variations, userInput, threshold, ratio) == Some(LocationInfo(
      variations[i].1,
      if Contains(LowerStrip(userInput), variations[i].0) then 0.9 else 0.8,
      Some(variations[i].0)))
  {
    var u := LowerStrip(userInput);
    assert FirstHit(variations, KeyIs(u)).None?;
    assert ExactMatch(variations, u).None?;
    assert FirstHit(variations, ContainmentHit(u)) == Some(i);
  }

  /** Stage three: when nothing contains or is contained in the input, the
      answer is None exactly when every variation scores below the threshold,
      and otherwise the first variation with the highest score. */
  lemma FuzzyWhenNothingContained(variations: seq<Row>, userInput: string, threshold: real, ratio: Ratio)
    requires forall j :: 0 <= j < |variations| ==> !ContainmentHit(LowerStrip(userInput))(variations[j])
    ensures ClosestDistrict(variations, userInput, threshold, ratio).None?
      <==> forall j :: 0 <= j < |variations| ==> Score(ratio, LowerStrip(userInput), variations[j].0) < threshold
    ensures ClosestDistrict(variations, userInput, threshold, ratio).Some? ==>
      exists i :: WinsAt(variations, ScoreOf(ratio, LowerStrip(userInput)), threshold, i)
        && ClosestDistrict(variations, userInput, threshold, ratio).value
           == Candidate(ScoreOf(ratio, LowerStrip(userInput)), variations[i])
  {
    ClosestIsFuzzy(variations, userInput, threshold, ratio);
    FuzzyBestSpec(variations, ScoreOf(ratio, LowerStrip(userInput)), threshold);
  }

  /** With no containment either way, the first two passes find nothing and
      the answer is the fuzzy pass's. */
  lemma ClosestIsFuzzy(variations: seq<Row>, userInput: string, threshold: real, ratio: Ratio)
    requires forall j :: 0 <= j < |variations| ==> !ContainmentHit(LowerStrip(userInput))(variations[j])
    ensures ClosestDistrict(variations, userInput, threshold, ratio)
      == FuzzyBest(variations, ScoreOf(ratio, LowerStrip(userInput)), threshold)
  {
    var u := LowerStrip(userInput);
    NoContainmentNoMatch(variations, u);
  }

  /** Neither of the first two passes answers for an input that no variation
      contains and that occurs in no variation. */
  lemma NoContainmentNoMatch(variations: seq<Row>, u: string)
    requires forall j :: 0 <= j < |variations| ==> !ContainmentHit(u)(variations[j])
    ensures ExactMatch(variations, u).None? && ContainmentMatch(variations, u).None?
  {
    forall j | 0 <= j < |variations|
      ensures !KeyIs(u)(variations[j])
    {
      ContainsSelf(u);
    }
  }

  /** When no pass answers, no variation occurs in the cleaned input. */
  lemma NoAnswerNoContainment(variations: seq<Row>, userInput: string, threshold: real, ratio: Ratio)
    requires ClosestDistrict(variations, userInput, threshold, ratio).None?
    ensures forall j :: 0 <= j < |variations| ==> !Contains(LowerStrip(userInput), variations[j].0)
  {
    var u := LowerStrip(userInput);
    assert ExactMatch(variations, u).None?;
    assert ContainmentMatch(variations, u).None?;
    assert FirstHit(variations, ContainmentHit(u)).None?;
  }

  /** Blank input is not reported as unknown: the empty text occurs in every
      variation, so the first row wins the containment stage with 0.8. */
  lemma BlankInputMatchesFirstRow(variations: seq<Row>, userInput: string, threshold: real, ratio: Ratio)
    requires variations != []
    requires forall j :: 0 <= j < |variations| ==> variations[j].0 != ""
    requires forall k :: 0 <= k < |userInput| ==> IsSpace(userInput[k])
    ensures ClosestDistrict(variations, userInput, threshold, ratio)
      == Some(LocationInfo(variations[0].1, 0.8, Some(variations[0].0)))
  {
    LowerStripSpec(userInput);
    assert LowerStrip(userInput) == "";
    ContainsEmpty(variations[0].0);
    assert ContainmentHit("")(variations[0]);
    if Contains("", variations[0].0) {
      ContainsShorter("", variations[0].0);
    }
  }

  /** With api.py's table, blank input resolves to Ahmedabad. */
  lemma BlankInputMatchesAhmedabad(userInput: string, threshold: real, ratio: Ratio)
    requires forall k :: 0 <= k < |userInput| ==> IsSpace(userInput[k])
    ensures ClosestDistrict(DistrictNameVariations, userInput, threshold, ratio)
      == Some(LocationInfo(Ahmedabad, 0.8, Some("ahmedabad")))
  {
    VariationKeysNonEmpty();
    KnownVariations();
    BlankInputMatchesFirstRow(DistrictNameVariations, userInput, threshold, ratio);
  }

  /** extract_location_from_command's fallback spellings. */
  const PhoneticVariations: seq<Row> := [
    ("rajcot", Rajkot),
    ("rajkott", Rajkot),
    ("surat", Surat),
    ("surath", Surat),
    ("ahmdabad", Ahmedabad),
    ("ahemdabad", Ahmedabad),
    ("vadodra", Vadodara),
    ("vadodara", Vadodara),
    ("baroda", Vadodara)
  ]

  /** extract_location_from_command's last resort: the first fallback
      spelling that occurs in the cleaned command, with confidence 0.9 and no
      matched text. */
  function PhoneticFallback(phonetics: seq<Row>, commandLower: string): (r: Option<LocationInfo>)
    ensures r.Some? <==> exists i :: 0 <= i < |phonetics| && Contains(commandLower, phonetics[i].0)
    ensures r.Some? ==> r.value.confidence == 0.9 && r.value.matchedText.None?
  {
    match FirstHit(phonetics, KeyIn(commandLower))
    case Some(i) => Some(LocationInfo(phonetics[i].1, 0.9, None))
    case None =>
      assert forall i :: 0 <= i < |phonetics| ==> !KeyIn(commandLower)(phonetics[i]);
      None
  }

  /** The fallback scan as written: a loop that returns on its first hit. */
  method ScanPhonetics(phonetics: seq<Row>, commandLower: string) returns (r: Option<LocationInfo>)
    ensures r == PhoneticFallback(phonetics, commandLower)
  {
    var i := 0;
    while i < |phonetics|
      invariant 0 <= i <= |phonetics|
      invariant forall j :: 0 <= j < i ==> !KeyIn(commandLower)(phonetics[j])
    {
      var (phonetic, district) := phonetics[i];
      if Contains(commandLower, phonetic) {
        assert KeyIn(commandLower)(phonetics[i]);
        return Some(LocationInfo(district, 0.9, None));
      }
      i := i + 1;
    }
    return None;
  }

  /** extract_location_from_command: the resolver with threshold 0.5 on the
      cleaned command, else the phonetic fallback. */
  function ExtractLocation(variations: seq<Row>, phonetics: seq<Row>, command: string, ratio: Ratio)
    : (r: Option<LocationInfo>)
    ensures r.Some? ==> 0.5 <= r.value.confidence <= 1.0
  {
    var commandLower := LowerStrip(command);
    var info := ClosestDistrict(variations, commandLower, 0.5, ratio);
    if info.Some? then info else PhoneticFallback(phonetics, commandLower)
  }

  /** extract_location_from_command as written; the tables are
      DistrictNameVariations and PhoneticVariations at every call. */
  method ExtractLocationFromCommand(variations: seq<Row>, phonetics: seq<Row>, command: string, ratio: Ratio)
    returns (r: Option<LocationInfo>)
    ensures r == ExtractLocation(variations, phonetics, command, ratio)
  {
    var commandLower := LowerStrip(command);
    r := FindClosestDistrict(variations, commandLower, 0.5, ratio);
    if r.None? {
      r := ScanPhonetics(phonetics, commandLower);
    }
  }

  /** An answer without matched text comes from a fallback spelling that
      occurs in the command and contains no variation: one that contained a
      variation would have let the resolver match that variation first. */
  lemma FallbackAnswerIsUnshadowed(variations: seq<Row>, phonetics: seq<Row>, command: string, ratio: Ratio)
    returns (i: nat)
    requires ExtractLocation(variations, phonetics, command, ratio).Some?
    requires ExtractLocation(variations, phonetics, command, ratio).value.matchedText.None?
    ensures i < |phonetics|
    ensures ExtractLocation(variations, phonetics, command, ratio) == Some(LocationInfo(phonetics[i].1, 0.9, None))
    ensures Contains(LowerStrip(command), phonetics[i].0)
    ensures forall j :: 0 <= j < |variations| ==> !Contains(phonetics[i].0, variations[j].0)
  {
    var c := LowerStrip(command);
    FallbackTaken(variations, phonetics, command, ratio);
    LowerStripIdempotent(command);
    NoAnswerNoContainment(variations, c, 0.5, ratio);
    i := FirstHit(phonetics, KeyIn(c)).value;
    forall j | 0 <= j < |variations|
      ensures !Contains(phonetics[i].0, variations[j].0)
    {
      if Contains(phonetics[i].0, variations[j].0) {
        ContainsTransitive(c, phonetics[i].0, variations[j].0);
      }
    }
  }

  /** An answer without matched text comes from the fallback scan, after
      find_closest_district found nothing. */
  lemma FallbackTaken(variations: seq<Row>, phonetics: seq<Row>, command: string, ratio: Ratio)
    requires ExtractLocation(variations, phonetics, command, ratio).Some?
    requires ExtractLocation(variations, phonetics, command, ratio).value.matchedText.None?
    ensures ClosestDistrict(variations, LowerStrip(command), 0.5, ratio).None?
    ensures ExtractLocation(variations, phonetics, command, ratio)
      == PhoneticFallback(phonetics, LowerStrip(command))
  {
  }

  /** Six of the nine fallback spellings can never answer, since each
      contains a key of DISTRICT_NAME_VARIATIONS; only the Ahmedabad and
      Vadodara misspellings are reachable. */
  lemma PhoneticFallbackReaches(command: string, ratio: Ratio)
    requires ExtractLocation(DistrictNameVariations, PhoneticVariations, command, ratio).Some?
    requires ExtractLocation(DistrictNameVariations, PhoneticVariations, command, ratio).value.matchedText.None?
    ensures ExtractLocation(DistrictNameVariations, PhoneticVariations, command, ratio).value.district
      in {Ahmedabad, Vadodara}
    ensures ExtractLocation(DistrictNameVariations, PhoneticVariations, command, ratio).value.confidence == 0.9
  {
    var i := FallbackAnswerIsUnshadowed(DistrictNameVariations, PhoneticVariations, command, ratio);
    var v := DistrictNameVariations;
    var p := PhoneticVariations;
    ShadowingPairs();
    PhoneticDistricts();
    VariationCount();
    assert !Contains(p[i].0, v[7].0) && !Contains(p[i].0, v[6].0) && !Contains(p[i].0, v[3].0)
      && !Contains(p[i].0, v[4].0) && !Contains(p[i].0, v[5].0);
    assert i != 0 && i != 1 && i != 2 && i != 3 && i != 7 && i != 8;
    assert i == 4 || i == 5 || i == 6;
    var d := if i == 4 then p[4].1 else if i == 5 then p[5].1 else p[6].1;
    assert p[i].1 == d;
    var r := ExtractLocation(v, p, command, ratio);
    assert r.value.district == p[i].1;
  }

  lemma VariationCount()
    ensures |DistrictNameVariations| == 96
  {
  }

  /** The six shadowed fallback spellings and a variation each contains. */
  lemma ShadowingPairs()
    ensures Contains(PhoneticVariations[0].0, DistrictNameVariations[7].0)
    ensures Contains(PhoneticVariations[1].0, DistrictNameVariations[6].0)
    ensures Contains(PhoneticVariations[2].0, DistrictNameVariations[3].0)
    ensures Contains(PhoneticVariations[3].0, DistrictNameVariations[3].0)
    ensures Contains(PhoneticVariations[7].0, DistrictNameVariations[4].0)
    ensures Contains(PhoneticVariations[8].0, DistrictNameVariations[5].0)
  {
    KnownVariations();
    ContainsSelf("rajcot");
    ContainsSelf("surat");
    ContainsSelf("vadodara");
    ContainsSelf("baroda");
    ContainsInConcat([], "rajkot", "t");
    ContainsInConcat([], "surat", "h");
  }

  /** The districts of the three unshadowed fallback spellings. */
  lemma PhoneticDistricts()
    ensures |PhoneticVariations| == 9
    ensures PhoneticVariations[4].1 == Ahmedabad && PhoneticVariations[5].1 == Ahmedabad
    ensures PhoneticVariations[6].1 == Vadodara
  {
  }

  /** is_weather_query */
  const WeatherKeywords: seq<string> := [
    "weather",
    "temperature",
    "rain",
    "forecast",
    "climate",
    "humid",
    "wind",
    "hot",
    "cold",
    "sunny",
    "cloudy",
    "storm",
    "precipitation",
    "degrees",
    "celsius",
    "fahrenheit",
    "mausam",
    "hava",
    "barish",
    "thand",
    "garmi",
    "\U{E0}\U{AA}\U{B9}\U{E0}\U{AA}\U{B5}\U{E0}\U{AA}\U{BE}\U{E0}\U{AA}\U{AE}\U{E0}\U{AA}\U{BE}\U{E0}\U{AA}\U{A8}",
    "\U{E0}\U{AA}\U{A4}\U{E0}\U{AA}\U{BE}\U{E0}\U{AA}\U{AA}\U{E0}\U{AA}\U{AE}\U{E0}\U{AA}\U{BE}\U{E0}\U{AA}\U{A8}",
    "\U{E0}\U{AA}\U{B5}\U{E0}\U{AA}\U{B0}\U{E0}\U{AA}\U{B8}\U{E0}\U{AA}\U{BE}\U{E0}\U{AA}\U{A6}",
    "\U{E0}\U{AA}\U{A0}\U{E0}\U{AA}\U{201A}\U{E0}\U{AA}\U{A1}\U{E0}\U{AB}\U{20AC}",
    "\U{E0}\U{AA}\U{2014}\U{E0}\U{AA}\U{B0}\U{E0}\U{AA}\U{AE}\U{E0}\U{AB}\U{20AC}",
    "\U{E0}\U{AA}\U{2020}\U{E0}\U{AA}\U{AC}\U{E0}\U{AB}\U{2039}\U{E0}\U{AA}\U{B9}\U{E0}\U{AA}\U{B5}\U{E0}\U{AA}\U{BE}",
    "\U{E0}\U{AA}\U{AE}\U{E0}\U{AB}\U{152}\U{E0}\U{AA}\U{B8}\U{E0}\U{AA}\U{AE}"
  ]

  /** is_commodity_query */
  const CommodityKeywords: seq<string> := [
    "price",
    "commodity",
    "market",
    "cost",
    "rate",
    "mandi",
    "bazaar",
    "sell",
    "buy",
    "crops",
    "vegetables",
    "fruits",
    "agriculture",
    "farming",
    "harvest",
    "produce",
    "wholesale",
    "retail",
    "potato",
    "tomato",
    "onion",
    "cotton",
    "wheat",
    "rice",
    "\U{E0}\U{A4}\U{2022}\U{E0}\U{A4}\U{BF}\U{E0}\U{A4}\U{AE}\U{E0}\U{A4}\U{A4}",
    "\U{E0}\U{A4}\U{A6}\U{E0}\U{A4}\U{BE}\U{E0}\U{A4}\U{AE}",
    "\U{E0}\U{A4}\U{AE}\U{E0}\U{A4}\U{201A}\U{E0}\U{A4}\U{A1}\U{E0}\U{A5}\U{20AC}",
    "\U{E0}\U{A4}\U{AC}\U{E0}\U{A4}\U{BE}\U{E0}\U{A4}\U{153}\U{E0}\U{A4}\U{BE}\U{E0}\U{A4}\U{B0}",
    "\U{E0}\U{A4}\U{AB}\U{E0}\U{A4}\U{B8}\U{E0}\U{A4}\U{B2}",
    "\U{E0}\U{A4}\U{2013}\U{E0}\U{A5}\U{2021}\U{E0}\U{A4}\U{A4}\U{E0}\U{A5}\U{20AC}",
    "\U{E0}\U{A4}\U{2020}\U{E0}\U{A4}\U{B2}\U{E0}\U{A5}\U{201A}",
    "\U{E0}\U{A4}\U{178}\U{E0}\U{A4}\U{AE}\U{E0}\U{A4}\U{BE}\U{E0}\U{A4}\U{178}\U{E0}\U{A4}\U{B0}",
    "\U{E0}\U{AA}\U{2022}\U{E0}\U{AA}\U{BF}\U{E0}\U{AA}\U{201A}\U{E0}\U{AA}\U{AE}\U{E0}\U{AA}\U{A4}",
    "\U{E0}\U{AA}\U{A6}\U{E0}\U{AA}\U{B0}",
    "\U{E0}\U{AA}\U{AE}\U{E0}\U{AA}\U{BE}\U{E0}\U{AA}\U{201A}\U{E0}\U{AA}\U{A1}\U{E0}\U{AB}\U{20AC}",
    "\U{E0}\U{AA}\U{AC}\U{E0}\U{AA}\U{153}\U{E0}\U{AA}\U{BE}\U{E0}\U{AA}\U{B0}",
    "\U{E0}\U{AA}\U{AA}\U{E0}\U{AA}\U{BE}\U{E0}\U{AA}\U{2022}",
    "\U{E0}\U{AA}\U{2013}\U{E0}\U{AB}\U{2021}\U{E0}\U{AA}\U{A4}\U{E0}\U{AB}\U{20AC}",
    "\U{E0}\U{AA}\U{AC}\U{E0}\U{AA}\U{178}\U{E0}\U{AA}\U{BE}\U{E0}\U{AA}\U{178}\U{E0}\U{AA}\U{BE}",
    "\U{E0}\U{AA}\U{178}\U{E0}\U{AA}\U{AE}\U{E0}\U{AB}\U{2021}\U{E0}\U{AA}\U{178}\U{E0}\U{AA}\U{BE}"
  ]

  function IsWeatherQuery(textLower: string): (r: bool)
    ensures r <==> exists k :: 0 <= k < |WeatherKeywords| && Contains(textLower, WeatherKeywords[k])
  {
    AnyInIff(WeatherKeywords, textLower);
    AnyIn(WeatherKeywords, textLower)
  }

  function IsCommodityQuery(textLower: string): (r: bool)
    ensures r <==> exists k :: 0 <= k < |CommodityKeywords| && Contains(textLower, CommodityKeywords[k])
  {
    AnyInIff(CommodityKeywords, textLower);
    AnyIn(CommodityKeywords, textLower)
  }

  /** is_query_allowed's lists. */
  const RestrictedKeywords: seq<string> := [
    "joke",
    "story",
    "poem",
    "recipe",
    "song",
    "movie",
    "game",
    "politics",
    "news",
    "religion",
    "philosophy",
    "personal",
    "relationship",
    "advice",
    "programming",
    "code",
    "technology",
    "sports",
    "entertainment",
    "travel",
    "education",
    "history",
    "science",
    "mathematics",
    "literature",
    "art"
  ]

  const AllowedKeywords: seq<string> := [
    "weather",
    "temperature",
    "rain",
    "forecast",
    "climate",
    "humid",
    "wind",
    "price",
    "commodity",
    "market",
    "cost",
    "rate",
    "mandi",
    "bazaar",
    "disease",
    "crop",
    "vegetable",
    "farming",
    "agriculture",
    "plant",
    "potato",
    "tomato",
    "onion",
    "cotton",
    "wheat",
    "rice",
    "\U{E0}\U{AA}\U{B9}\U{E0}\U{AA}\U{B5}\U{E0}\U{AA}\U{BE}\U{E0}\U{AA}\U{AE}\U{E0}\U{AA}\U{BE}\U{E0}\U{AA}\U{A8}",
    "\U{E0}\U{AA}\U{A4}\U{E0}\U{AA}\U{BE}\U{E0}\U{AA}\U{AA}\U{E0}\U{AA}\U{AE}\U{E0}\U{AA}\U{BE}\U{E0}\U{AA}\U{A8}",
    "\U{E0}\U{AA}\U{B5}\U{E0}\U{AA}\U{B0}\U{E0}\U{AA}\U{B8}\U{E0}\U{AA}\U{BE}\U{E0}\U{AA}\U{A6}",
    "\U{E0}\U{AA}\U{2022}\U{E0}\U{AA}\U{BF}\U{E0}\U{AA}\U{201A}\U{E0}\U{AA}\U{AE}\U{E0}\U{AA}\U{A4}",
    "\U{E0}\U{AA}\U{AC}\U{E0}\U{AA}\U{153}\U{E0}\U{AA}\U{BE}\U{E0}\U{AA}\U{B0}",
    "\U{E0}\U{AA}\U{B0}\U{E0}\U{AB}\U{2039}\U{E0}\U{AA}\U{2014}",
    "\U{E0}\U{AA}\U{2013}\U{E0}\U{AB}\U{2021}\U{E0}\U{AA}\U{A4}\U{E0}\U{AB}\U{20AC}",
    "\U{E0}\U{AA}\U{AC}\U{E0}\U{AA}\U{178}\U{E0}\U{AA}\U{BE}\U{E0}\U{AA}\U{178}\U{E0}\U{AA}\U{BE}",
    "\U{E0}\U{AA}\U{178}\U{E0}\U{AA}\U{AE}\U{E0}\U{AB}\U{2021}\U{E0}\U{AA}\U{178}\U{E0}\U{AA}\U{BE}",
    "\U{E0}\U{A4}\U{AE}\U{E0}\U{A5}\U{152}\U{E0}\U{A4}\U{B8}\U{E0}\U{A4}\U{AE}",
    "\U{E0}\U{A4}\U{A4}\U{E0}\U{A4}\U{BE}\U{E0}\U{A4}\U{AA}\U{E0}\U{A4}\U{AE}\U{E0}\U{A4}\U{BE}\U{E0}\U{A4}\U{A8}",
    "\U{E0}\U{A4}\U{AC}\U{E0}\U{A4}\U{BE}\U{E0}\U{A4}\U{B0}\U{E0}\U{A4}\U{BF}\U{E0}\U{A4}\U{B6}",
    "\U{E0}\U{A4}\U{2022}\U{E0}\U{A5}\U{20AC}\U{E0}\U{A4}\U{AE}\U{E0}\U{A4}\U{A4}",
    "\U{E0}\U{A4}\U{AC}\U{E0}\U{A4}\U{BE}\U{E0}\U{A4}\U{153}\U{E0}\U{A4}\U{BE}\U{E0}\U{A4}\U{B0}",
    "\U{E0}\U{A4}\U{AC}\U{E0}\U{A5}\U{20AC}\U{E0}\U{A4}\U{AE}\U{E0}\U{A4}\U{BE}\U{E0}\U{A4}\U{B0}\U{E0}\U{A5}\U{20AC}",
    "\U{E0}\U{A4}\U{2013}\U{E0}\U{A5}\U{2021}\U{E0}\U{A4}\U{A4}\U{E0}\U{A5}\U{20AC}",
    "\U{E0}\U{A4}\U{2020}\U{E0}\U{A4}\U{B2}\U{E0}\U{A5}\U{201A}",
    "\U{E0}\U{A4}\U{178}\U{E0}\U{A4}\U{AE}\U{E0}\U{A4}\U{BE}\U{E0}\U{A4}\U{178}\U{E0}\U{A4}\U{B0}"
  ]

  /** is_query_allowed: some allowed keyword occurs in the lower-cased text
      and no restricted keyword does, so a restricted word always wins. */
  function IsQueryAllowed(text: string): (r: bool)
    ensures r <==>
      (exists k :: 0 <= k < |AllowedKeywords| && Contains(Lower(text), AllowedKeywords[k]))
      && (forall k :: 0 <= k < |RestrictedKeywords| ==> !Contains(Lower(text), RestrictedKeywords[k]))
  {
    var textLower := Lower(text);
    AnyInIff(RestrictedKeywords, textLower);
    AnyInIff(AllowedKeywords, textLower);
    AnyIn(AllowedKeywords, textLower) && !AnyIn(RestrictedKeywords, textLower)
  }

  /** get_popular_districts_list's Hindi and Gujarati lists, as the file holds them. */
  const PopularHindi: seq<string> := ["\U{E0}\U{A4}\U{2026}\U{E0}\U{A4}\U{B9}\U{E0}\U{A4}\U{AE}\U{E0}\U{A4}\U{A6}\U{E0}\U{A4}\U{BE}\U{E0}\U{A4}\U{AC}\U{E0}\U{A4}\U{BE}\U{E0}\U{A4}\U{A6}", "\U{E0}\U{A4}\U{B8}\U{E0}\U{A5}\U{201A}\U{E0}\U{A4}\U{B0}\U{E0}\U{A4}\U{A4}", "\U{E0}\U{A4}\U{B5}\U{E0}\U{A4}\U{A1}\U{E0}\U{A5}\U{2039}\U{E0}\U{A4}\U{A6}\U{E0}\U{A4}\U{B0}\U{E0}\U{A4}\U{BE}", "\U{E0}\U{A4}\U{B0}\U{E0}\U{A4}\U{BE}\U{E0}\U{A4}\U{153}\U{E0}\U{A4}\U{2022}\U{E0}\U{A5}\U{2039}\U{E0}\U{A4}\U{178}", "\U{E0}\U{A4}\U{2014}\U{E0}\U{A4}\U{BE}\U{E0}\U{A4}\U{201A}\U{E0}\U{A4}\U{A7}\U{E0}\U{A5}\U{20AC}\U{E0}\U{A4}\U{A8}\U{E0}\U{A4}\U{2014}\U{E0}\U{A4}\U{B0}", "\U{E0}\U{A4}\U{153}\U{E0}\U{A4}\U{BE}\U{E0}\U{A4}\U{AE}\U{E0}\U{A4}\U{A8}\U{E0}\U{A4}\U{2014}\U{E0}\U{A4}\U{B0}"]
  const PopularGujarati: seq<string> := ["\U{E0}\U{AA}\U{2026}\U{E0}\U{AA}\U{AE}\U{E0}\U{AA}\U{A6}\U{E0}\U{AA}\U{BE}\U{E0}\U{AA}\U{B5}\U{E0}\U{AA}\U{BE}\U{E0}\U{AA}\U{A6}", "\U{E0}\U{AA}\U{B8}\U{E0}\U{AB}\U{E0}\U{AA}\U{B0}\U{E0}\U{AA}\U{A4}", "\U{E0}\U{AA}\U{B5}\U{E0}\U{AA}\U{A1}\U{E0}\U{AB}\U{2039}\U{E0}\U{AA}\U{A6}\U{E0}\U{AA}\U{B0}\U{E0}\U{AA}\U{BE}", "\U{E0}\U{AA}\U{B0}\U{E0}\U{AA}\U{BE}\U{E0}\U{AA}\U{153}\U{E0}\U{AA}\U{2022}\U{E0}\U{AB}\U{2039}\U{E0}\U{AA}\U{178}", "\U{E0}\U{AA}\U{2014}\U{E0}\U{AA}\U{BE}\U{E0}\U{AA}\U{201A}\U{E0}\U{AA}\U{A7}\U{E0}\U{AB}\U{20AC}\U{E0}\U{AA}\U{A8}\U{E0}\U{AA}\U{2014}\U{E0}\U{AA}\U{B0}", "\U{E0}\U{AA}\U{153}\U{E0}\U{AA}\U{BE}\U{E0}\U{AA}\U{AE}\U{E0}\U{AA}\U{A8}\U{E0}\U{AA}\U{2014}\U{E0}\U{AA}\U{B0}"]

  /** get_popular_districts_list: the language's list, English for any other code. */
  function PopularDistricts(language: string): (names: seq<string>)
    ensures language == "hi" ==> names == PopularHindi
    ensures language == "gu" ==> names == PopularGujarati
    ensures language !in {"hi", "gu"} ==> names == Names(PopularEnglish)
    ensures |names| == 6
  {
    var popular := map["en" := Names(PopularEnglish), "hi" := PopularHindi, "gu" := PopularGujarati];
    if language in popular then popular[language] else popular["en"]
  }


  /** translate_disease_text's fixed replies, as the file holds them. */
  const GuAnthracnose: string := "\U{E0}\U{AA}\U{178}\U{E0}\U{AA}\U{BE}\U{E0}\U{AA}\U{AE}\U{E0}\U{AB}\U{2021}\U{E0}\U{AA}\U{178}\U{E0}\U{AA}\U{BE} \U{E0}\U{AA}\U{E0}\U{AA}\U{A8}\U{E0}\U{AB}\U{E0}\U{AA}\U{A5}\U{E0}\U{AB}\U{E0}\U{AA}\U{B0}\U{E0}\U{AB}\U{2021}\U{E0}\U{AA}\U{2022}\U{E0}\U{AA}\U{A8}\U{E0}\U{AB}\U{2039}\U{E0}\U{AA} \U{E0}\U{AA}\U{B0}\U{E0}\U{AB}\U{2039}\U{E0}\U{AA}\U{2014}"
  const GuEarlyBlight: string := "\U{E0}\U{AA}\U{178}\U{E0}\U{AA}\U{AE}\U{E0}\U{AB}\U{2021}\U{E0}\U{AA}\U{178}\U{E0}\U{AA}\U{BE}\U{E0}\U{AA}\U{AE}\U{E0}\U{AA}\U{BE}\U{E0}\U{AA}\U{201A} \U{E0}\U{AA}\U{B5}\U{E0}\U{AA}\U{B9}\U{E0}\U{AB}\U{2021}\U{E0}\U{AA}\U{B2}\U{E0}\U{AB}\U{E0}\U{AA}\U{201A} \U{E0}\U{AA}\U{178}\U{E0}\U{AA}\U{AA}\U{E0}\U{AA}\U{2022}\U{E0}\U{AB}\U{E0}\U{AA}\U{201A}"
  const GuPowderyMildew: string := "\U{E0}\U{AA}\U{178}\U{E0}\U{AA}\U{BE}\U{E0}\U{AA}\U{AE}\U{E0}\U{AB}\U{2021}\U{E0}\U{AA}\U{178}\U{E0}\U{AA}\U{BE}\U{E0}\U{AA}\U{A8}\U{E0}\U{AB}\U{2039} \U{E0}\U{AA}\U{AD}\U{E0}\U{AB}\U{201A}\U{E0}\U{AA}\U{2022}\U{E0}\U{AB}\U{20AC} \U{E0}\U{AA}\U{203A}\U{E0}\U{AA}\U{BE}\U{E0}\U{AA}\U{B0}\U{E0}\U{AB}\U{2039}"
  const HiAnthracnose: string := "\U{E0}\U{A4}\U{178}\U{E0}\U{A4}\U{AE}\U{E0}\U{A4}\U{BE}\U{E0}\U{A4}\U{178}\U{E0}\U{A4}\U{B0} \U{E0}\U{A4}\U{E0}\U{A4}\U{A8}\U{E0}\U{A5}\U{E0}\U{A4}\U{A5}\U{E0}\U{A5}\U{E0}\U{A4}\U{B0}\U{E0}\U{A5}\U{2021}\U{E0}\U{A4}\U{2022}\U{E0}\U{A5}\U{E0}\U{A4}\U{A8}\U{E0}\U{A5}\U{2039}\U{E0}\U{A4}\U{153}"
  const HiEarlyBlight: string := "\U{E0}\U{A4}\U{178}\U{E0}\U{A4}\U{AE}\U{E0}\U{A4}\U{BE}\U{E0}\U{A4}\U{178}\U{E0}\U{A4}\U{B0} \U{E0}\U{A4}\U{2022}\U{E0}\U{A4}\U{BE} \U{E0}\U{A4}\U{B6}\U{E0}\U{A5}\U{20AC}\U{E0}\U{A4}\U{2DC}\U{E0}\U{A5}\U{E0}\U{A4}\U{B0} \U{E0}\U{A4}\U{E0}\U{A5}\U{E0}\U{A4}\U{B2}\U{E0}\U{A4}\U{B8}\U{E0}\U{A4}\U{BE} \U{E0}\U{A4}\U{B0}\U{E0}\U{A5}\U{2039}\U{E0}\U{A4}\U{2014}"
  const HiPowderyMildew: string := "\U{E0}\U{A4}\U{178}\U{E0}\U{A4}\U{AE}\U{E0}\U{A4}\U{BE}\U{E0}\U{A4}\U{178}\U{E0}\U{A4}\U{B0} \U{E0}\U{A4}\U{AA}\U{E0}\U{A4}\U{BE}\U{E0}\U{A4}\U{2030}\U{E0}\U{A4}\U{A1}\U{E0}\U{A4}\U{B0}\U{E0}\U{A5}\U{20AC} \U{E0}\U{A4}\U{AB}\U{E0}\U{A4}\U{AB}\U{E0}\U{A5}\U{201A}\U{E0}\U{A4}\U{201A}\U{E0}\U{A4}\U{A6}\U{E0}\U{A5}\U{20AC}"
  const GuUnknown: string := "\U{E0}\U{AA}\U{2026}\U{E0}\U{AA}\U{AA}\U{E0}\U{AB}\U{E0}\U{AA}\U{B0}\U{E0}\U{AA}\U{B8}\U{E0}\U{AB}\U{E0}\U{AA}\U{A4}\U{E0}\U{AB}\U{E0}\U{AA}\U{A4}"
  const HiUnknown: string := "\U{E0}\U{A4}\U{2026}\U{E0}\U{A4}\U{AA}\U{E0}\U{A5}\U{E0}\U{A4}\U{B0}\U{E0}\U{A4}\U{BE}\U{E0}\U{A4}\U{B8}\U{E0}\U{A4}\U{201A}\U{E0}\U{A4}\U{2014}\U{E0}\U{A4}\U{BF}\U{E0}\U{A4}\U{2022}"

  /** The three diseases translate_disease_text knows. */
  const KnownDiseases: set<string> := {"Tomato Anthracnose", "Tomato Early Blight", "Tomato Powdery Mildew"}

  /** translate_disease_text: English and unknown languages pass the text
      through; Gujarati and Hindi map the three known diseases to their fixed
      replies and any other text to one fallback reply. */
  function TranslateDiseaseText(text: string, targetLanguage: string): (r: string)
    ensures targetLanguage !in {"gu", "hi"} ==> r == text
    ensures targetLanguage == "gu" && text == "Tomato Anthracnose" ==> r == GuAnthracnose
    ensures targetLanguage == "gu" && text == "Tomato Early Blight" ==> r == GuEarlyBlight
    ensures targetLanguage == "gu" && text == "Tomato Powdery Mildew" ==> r == GuPowderyMildew
    ensures targetLanguage == "gu" && text !in KnownDiseases ==> r == GuUnknown
    ensures targetLanguage == "hi" && text == "Tomato Anthracnose" ==> r == HiAnthracnose
    ensures targetLanguage == "hi" && text == "Tomato Early Blight" ==> r == HiEarlyBlight
    ensures targetLanguage == "hi" && text == "Tomato Powdery Mildew" ==> r == HiPowderyMildew
    ensures targetLanguage == "hi" && text !in KnownDiseases ==> r == HiUnknown
  {
    if targetLanguage == "en" then text
    else if targetLanguage == "gu" then
      if text == "Tomato Anthracnose" then GuAnthracnose
      else if text == "Tomato Early Blight" then GuEarlyBlight
      else if text == "Tomato Powdery Mildew" then GuPowderyMildew
      else GuUnknown
    else if targetLanguage == "hi" then
      if text == "Tomato Anthracnose" then HiAnthracnose
      else if text == "Tomato Early Blight" then HiEarlyBlight
      else if text == "Tomato Powdery Mildew" then HiPowderyMildew
      else HiUnknown
    else text
  }

  /** In Gujarati and Hindi, every name other than the three diseases gets
      the same fallback translation; the table is never consulted beyond them. */
  lemma UnknownDiseasesShareTranslation(a: string, b: string, language: string)
    requires language == "gu" || language == "hi"
    requires a !in KnownDiseases && b !in KnownDiseases
    ensures TranslateDiseaseText(a, language) == TranslateDiseaseText(b, language)
  {
  }


  /** handle_weather_query's thresholds: a forecast from 0.7, without
      "did you mean" from 0.9. */
  const ForecastFrom: real := 0.7
  const ExactFrom: real := 0.9

  /** Every resolution the extractor produces is above the 0.4 floor, so
      the weather handler reports "not found" exactly when no district was
      extracted at all. */
  lemma WeatherNotFoundIff(variations: seq<Row>, phonetics: seq<Row>, command: string, ratio: Ratio, language: string)
    ensures TieredReply(ExtractLocation(variations, phonetics, command, ratio), ForecastFrom, ExactFrom,
      PopularDistricts(language)).NotFound?
      <==> ExtractLocation(variations, phonetics, command, ratio).None?
  {
    NotFoundIffUnresolved(ExtractLocation(variations, phonetics, command, ratio), ForecastFrom, ExactFrom,
      PopularDistricts(language));
  }

  /** handle_commodity_query's district filter: only a resolution of
      confidence 0.7 or more narrows the price lookup. */
  function CommodityDistrict(info: Option<LocationInfo>): (d: Option<District>)
    ensures d.Some? <==> info.Some? && info.value.confidence >= 0.7
    ensures d.Some? ==> d.value == info.value.district
  {
    if info.Some? && info.value.confidence >= 0.7 then Some(info.value.district) else None
  }

  /** smart_assistant: an uploaded file or an "image" field goes to disease
      detection; blank text is refused; otherwise weather words win over
      commodity words, and anything else is chat, answered only when
      is_query_allowed admits it. */
  function SmartAssistant(request: Request, ratio: Ratio): (d: Dispatch)
    ensures d.language in {"en", "hi", "gu"}
    ensures d.language == NormalizeLanguageCode(Get(request.data, "language", "en"))
    ensures d.route.Weather? ==>
      d.route.reply == TieredReply(ExtractLocation(DistrictNameVariations, PhoneticVariations, Lower(Strip(Get(request.data, "text", ""))), ratio),
        ForecastFrom, ExactFrom, PopularDistricts(d.language))
    ensures d.route.Commodity? ==>
      d.route.district == CommodityDistrict(ExtractLocation(DistrictNameVariations, PhoneticVariations, Lower(Strip(Get(request.data, "text", ""))), ratio))
    ensures d.route.DiseaseDetection? <==> request.hasFile || "image" in request.data
    ensures d.route.MissingInput? <==>
      !(request.hasFile || "image" in request.data) && Strip(Get(request.data, "text", "")) == []
    ensures d.route.Weather? ==> IsWeatherQuery(Lower(Strip(Get(request.data, "text", ""))))
    ensures d.route.Commodity? ==>
      !IsWeatherQuery(Lower(Strip(Get(request.data, "text", ""))))
      && IsCommodityQuery(Lower(Strip(Get(request.data, "text", ""))))
    ensures d.route.Chat? ==>
      !IsWeatherQuery(Lower(Strip(Get(request.data, "text", ""))))
      && !IsCommodityQuery(Lower(Strip(Get(request.data, "text", ""))))
      && (d.route.allowed <==> IsQueryAllowed(Strip(Get(request.data, "text", ""))))
  {
    var language := NormalizeLanguageCode(Get(request.data, "language", "en"));
    if request.hasFile || "image" in request.data then Dispatch(language, DiseaseDetection)
    else
      var text := Strip(Get(request.data, "text", ""));
      if text == [] then Dispatch(language, MissingInput)
      else
        var textLower := Lower(text);
        if IsWeatherQuery(textLower) then
          var info := ExtractLocation(DistrictNameVariations, PhoneticVariations, textLower, ratio);
          Dispatch(language, Weather(TieredReply(info, ForecastFrom, ExactFrom, PopularDistricts(language))))
        else if IsCommodityQuery(textLower) then
          var info := ExtractLocation(DistrictNameVariations, PhoneticVariations, textLower, ratio);
          Dispatch(language, Commodity(CommodityDistrict(info)))
        else
          Dispatch(language, Chat(IsQueryAllowed(text)))
  }

  /** A request routed to the weather handler is answered "not found" exactly
      when no district could be extracted from its text. */
  lemma RoutedWeatherNotFound(request: Request, ratio: Ratio)
    requires SmartAssistant(request, ratio).route.Weather?
    ensures SmartAssistant(request, ratio).route.reply.NotFound?
      <==> ExtractLocation(DistrictNameVariations, PhoneticVariations, Lower(Strip(Get(request.data, "text", ""))), ratio).None?
  {
    WeatherNotFoundIff(DistrictNameVariations, PhoneticVariations, Lower(Strip(Get(request.data, "text", ""))), ratio,
      SmartAssistant(request, ratio).language);
  }

  /** A text request with a weather keyword is routed to the weather handler,
      whatever commodity words it also holds. */
  lemma WeatherBeforeCommodity(request: Request, ratio: Ratio)
    requires !request.hasFile && "image" !in request.data
    requires Strip(Get(request.data, "text", "")) != []
    requires IsWeatherQuery(Lower(Strip(Get(request.data, "text", ""))))
    ensures SmartAssistant(request, ratio).route.Weather?
  {
  }


}
