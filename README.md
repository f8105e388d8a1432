# Gujarat farmer assistant: query routing and district resolution

This project models the part of the Gujarat farmer-assistant backend that turns a
free-text or voice request into a route and a district. Three generations of the
Flask service are modelled side by side:

- `api.py`, the newest. `Api` models its router. `DISTRICT_NAME_VARIATIONS` drives
  `find_closest_district`, which tries three passes in order: an exact key, then
  containment in either direction (0.9 or 0.8), then the best fuzzy match. The
  phonetic fallback of `extract_location_from_command` follows. The weather handler
  answers in three tiers (0.7 / 0.4), the commodity handler filters at 0.7, and
  `smart_assistant` dispatches the request.
- `test.py`, the older service. `Legacy` models it. It builds an `all_districts`
  dictionary from English names, Gujarati names and three variations. Its extractor
  looks for exact mentions before fuzzy matching, its weather tiers are 0.8 / 0.4,
  and its commodity handler scans names directly.
- `app.py`, the minimal service. `App` models its `process_text` and
  `process_voice_command` routes. Each is a keyword check followed by a substring
  scan over `GUJARAT_DISTRICTS`.

Shared pieces have modules of their own:

- `Strings`: ASCII `lower`, `strip`, `split`, the `in` substring test and decimal
  rendering.
- `Ranking`: the stable descending sort of `best_matches`.
- `Common`: the 33 districts, `normalize_language_code` and `allowed_file`.
- `Matching`: similarity scoring, the candidate list and the best fuzzy match.
- `Routing`: the tiered weather reply and the dispatch datatypes.
- `Report`: `format_commodity_response` in both layouts.

Districts form an enumeration of the 33 keys of `GUJARAT_DISTRICTS`. Every
canonical value of every table is therefore a district. `Common.NameIsKey` proves
that its name is a key, so the coordinate lookups after resolution cannot fail
(api.py:900, test.py:753, app.py:88).

Python dictionaries are ordered sequences of `(key, district)` rows. A loop that
returns on its first hit is a method with a `while` loop, proved equal to a
`FirstHit` specification function. `difflib`'s ratio is a parameter `ratio` with
values in [0, 1]. Nothing about it is assumed beyond that range.

Two edge cases of the code are worth stating:

- Blank input. `api.py`'s resolver maps a blank string to Ahmedabad with
  confidence 0.8, because the empty string occurs in every variation
  (`Api.BlankInputMatchesAhmedabad`). `smart_assistant` refuses blank text with
  status 400 before the resolver runs.
- Similarity. `difflib`'s ratio promises no symmetry, so the model takes it only as
  a function into [0, 1].

Six of the nine phonetic fallback spellings of `api.py` can never be the answer.
Each contains a key of `DISTRICT_NAME_VARIATIONS`, so the resolver has already
matched that key (`Api.PhoneticFallbackReaches`).

## Model

| member | source | states |
|---|---|---|
| Strings.LowerChars | api.py:640 | `lower()` maps every character through the ASCII case map, and its result has no upper-case letter |
| Strings.LowerIdempotent | api.py:640 | lower-casing twice equals lower-casing once |
| Strings.LowerConcat | api.py:640 | lower-casing distributes over concatenation |
| Strings.TrimStartSpec | api.py:640 | the left trim is a suffix of the input, starts with a non-space, and everything dropped is white space |
| Strings.TrimEndSpec | api.py:640 | the right trim is a prefix of the input, ends with a non-space, and everything dropped is white space |
| Strings.StripSpec | api.py:640 | `strip()` leaves no white space at either end; it is empty exactly when the input is all white space |
| Strings.StripIdempotent | api.py:640 | stripping a stripped string changes nothing |
| Strings.StripLowerCommute | api.py:640 | stripping and lower-casing commute, so `lower().strip()` equals `strip().lower()` |
| Strings.LowerStripSpec | api.py:640 | the cleaned input has no upper-case letter and is empty exactly when the input is blank |
| Strings.LowerStripIdempotent | api.py:698 | cleaning an already cleaned command (the extractor cleans it again inside the resolver) changes nothing |
| Strings.WordLength | api.py:666 | a word ends at the first white-space character or at the end of the text |
| Strings.Split | api.py:666 | `split()` yields only non-empty words free of white space |
| Strings.Join | api.py:666 | `' '.join` of the words, with one space between neighbours |
| Strings.SplitJoin | api.py:666 | splitting the space-joined words gives back exactly those words, so `split()` is the inverse of `' '.join` |
| Strings.SplitWord | api.py:666 | a single word splits into itself |
| Strings.ContainsIff | api.py:652 | `part in text` holds exactly when `part` occurs at some index of `text` |
| Strings.ContainsTransitive | api.py:652 | an occurrence inside an occurrence is an occurrence |
| Strings.AnyInIff | api.py:731 | `any(keyword in text ...)` holds exactly when some keyword of the list occurs in the text |
| Strings.RemoveChar | api.py:244 | `replace(c, '')` leaves no `c` and keeps every other character, with its count |
| Strings.RemoveCharConcat | api.py:244 | removing `c` from a concatenation removes it from each part and concatenates the results, so the other characters keep their order |
| Strings.RemoveCharAbsent | api.py:244 | a string without `c` is unchanged |
| Strings.NatToString | api.py:568 | the decimal rendering is a non-empty digit string without a leading zero |
| Strings.NatToStringRoundTrip | api.py:568 | reading the digits back gives the number |
| Strings.NatToStringInjective | api.py:568 | different counts render differently |
| Ranking.Insert | api.py:682 | inserting one candidate adds exactly that element to the multiset |
| Ranking.SortDescending | api.py:682 | the sorted list is a permutation of the candidates |
| Ranking.InsertKeepsOrder | api.py:682 | inserting into a list ordered by descending score keeps it ordered |
| Ranking.SortDescendingOrdered | api.py:682 | `sort(key=..., reverse=True)` yields non-increasing scores |
| Ranking.FirstMaxIndex | api.py:682-683 | the first element of highest score: no element scores more, and every earlier one scores less |
| Ranking.SortDescendingHead | api.py:682-683 | the stable reverse sort puts the first of the highest-scoring candidates at the front |
| Common.Position | api.py:47-81 | every district sits at its position in `GUJARAT_DISTRICTS` |
| Common.PositionInverse | api.py:47-81 | the position of the district at index k is k |
| Common.NameIsKey | api.py:47-81 | every district's name is a key of `GUJARAT_DISTRICTS` |
| Common.FromNameInverse | api.py:47-81 | looking a district's key up again gives back the district |
| Common.NameInjective | api.py:47-81 | no two districts share a key |
| Common.DistrictsDistinct | api.py:47-81 | the 33 keys of `GUJARAT_DISTRICTS` are pairwise distinct |
| Common.Names | api.py:689 | the list of names matches the list of districts element by element |
| Common.Get | api.py:1084 | `dict.get` returns the stored value for a present key and the default otherwise |
| Common.CleanLanguage | api.py:244 | the cleaned code is lower case, holds no `-` or `_`, and keeps every other character of the lower-cased code with its count |
| Common.CleanLanguageConcat | api.py:244 | cleaning distributes over concatenation, so the kept characters stay in order |
| Common.CleanLanguageKeeps | api.py:244 | a lower-case code without `-` or `_` is left as it is |
| Common.NormalizeLanguageCode | api.py:243-250 | the result is always one of "gu", "hi" or "en" |
| Common.NormalizeLanguageCodeIff | api.py:243-250 | "gu" exactly when the cleaned code contains "gu"; "hi" exactly when it contains "hi" and not "gu"; "en" otherwise (the "gujarati" and "hindi" tests add nothing) |
| Common.NormalizeLanguageCodeIdempotent | api.py:243-250 | normalising a normalised code changes nothing |
| Common.NormalizeLanguageCodeFixes | api.py:243-250 | each of gu, hi and en normalises to itself |
| Common.AfterLastDot | api.py:288 | `rsplit('.', 1)[1]` is the dot-free suffix after the last dot |
| Common.AllowedFileIff | api.py:287-288 | a file is allowed exactly when its name has a dot and the lower-cased text after the last dot is png, jpg or jpeg |
| Matching.Similarity | api.py:635-636 | similarity compares the lower-cased strings and lies in [0, 1] |
| Matching.MaxWordSimilarityIsMax | api.py:666-668 | the best word similarity is 0 for no words, bounds every word's similarity and is reached by some word |
| Matching.Score | api.py:663-670 | the score of a variation lies in [0, 1] |
| Matching.ScoreIsMax | api.py:663-670 | the score bounds the whole-input similarity and every word similarity, and equals one of them |
| Matching.ScoreLower | test.py:488-494 | scoring against a lower-cased name equals scoring against the name |
| Matching.Candidates | api.py:661-678 | `best_matches` holds at most one entry per variation, and only entries at or above the threshold |
| Matching.CandidatesSnoc | api.py:672-678 | one more variation appends its entry exactly when it reaches the threshold |
| Matching.CandidatesEmptyIff | api.py:680-685 | no candidate exactly when no variation reaches the threshold |
| Matching.CandidatesFirstMax | api.py:680-683 | the head after sorting is the entry of the first variation with the highest score |
| Matching.FuzzyBest | api.py:680-685 | a fuzzy answer has confidence at least the threshold |
| Matching.FuzzyBestSpec | api.py:680-685 | no answer exactly when nothing reaches the threshold; otherwise the answer is the first variation of highest score, with that score as confidence and the variation as matched text |
| Matching.FirstHit | api.py:651-658 | a first-hit scan returns the least index that hits, and nothing exactly when no row hits |
| Routing.TieredReply | api.py:898-977 | a forecast exactly at or above the forecast threshold; a clarification exactly strictly between 0.4 and it; "did you mean" exactly below the exact threshold; otherwise not found with the popular list |
| Routing.TieredReplyMonotone | api.py:898-977 | a more confident resolution never gets a less certain reply |
| Routing.NotFoundIffUnresolved | api.py:898-977 | when every resolution is above 0.4, "not found" means no district was resolved |
| Api.VariationKeysNonEmpty | api.py:84-188 | no key of `DISTRICT_NAME_VARIATIONS` is empty |
| Api.ClosestDistrict | api.py:638-685 | every answer has matched text, and its confidence is 1.0, 0.9 or 0.8, or else at least the threshold |
| Api.ExactMatch | api.py:642-648 | an exact hit has confidence 1.0 and the cleaned input as matched text |
| Api.ContainmentMatch | api.py:651-658 | a containment hit has confidence 0.9 or 0.8 and a matched variation |
| Api.ScanContainment | api.py:651-658 | the containment loop returns the first variation contained in, or containing, the input |
| Api.CollectMatches | api.py:661-678 | the fuzzy loop builds exactly the candidate list |
| Api.FindClosestDistrict | api.py:638-685 | the resolver as written computes the three-pass answer |
| Api.ExactVariationWins | api.py:642-648 | an input equal to a key resolves to that key's district with confidence 1.0, whatever else matches |
| Api.ContainedVariationWins | api.py:651-658 | without an exact key, the first variation in a containment relation with the input wins, with 0.9 when it occurs in the input and 0.8 otherwise |
| Api.FuzzyWhenNothingContained | api.py:660-685 | when no variation is contained in, or contains, the input, the answer is the first best fuzzy match at or above the threshold, or nothing |
| Api.ClosestIsFuzzy | api.py:660-685 | without containment the resolver's answer is the fuzzy pass's answer |
| Api.NoAnswerNoContainment | api.py:651-658 | when the resolver finds nothing, no variation occurs in the cleaned input |
| Api.BlankInputMatchesFirstRow | api.py:651-658 | a blank input is contained in every variation, so it matches the first row with confidence 0.8 |
| Api.BlankInputMatchesAhmedabad | api.py:84-88 | with the real table, a blank input resolves to Ahmedabad |
| Api.PhoneticFallback | api.py:706-722 | the fallback answers exactly when some phonetic spelling occurs in the command, with confidence 0.9 and no matched text |
| Api.ScanPhonetics | api.py:718-722 | the fallback loop returns the first phonetic spelling found |
| Api.ExtractLocation | api.py:696-722 | every extracted location has confidence between 0.5 and 1.0 |
| Api.ExtractLocationFromCommand | api.py:696-722 | the extractor as written: the resolver at 0.5 on the cleaned command, then the fallback |
| Api.FallbackTaken | api.py:700-704 | an answer without matched text comes from the fallback, after the resolver found nothing |
| Api.FallbackAnswerIsUnshadowed | api.py:700-722 | such an answer comes from a phonetic spelling that occurs in the command and contains no variation |
| Api.PhoneticFallbackReaches | api.py:706-720 | with the real tables, the fallback can only answer Ahmedabad or Vadodara, each at 0.9 |
| Api.IsWeatherQuery | api.py:724-731 | a weather query exactly when some weather keyword occurs |
| Api.IsCommodityQuery | api.py:733-742 | a commodity query exactly when some commodity keyword occurs |
| Api.IsQueryAllowed | api.py:574-596 | allowed exactly when some allowed keyword occurs and no restricted one does |
| Api.PopularDistricts | api.py:687-694 | the Hindi list for hi, the Gujarati list for gu, the six English names of Ahmedabad, Surat, Vadodara, Rajkot, Gandhinagar and Jamnagar for any other language |
| Api.TranslateDiseaseText | api.py:315-342 | text for any language other than gu and hi is returned unchanged; each of the three known diseases gets its Gujarati or Hindi name; any other text gets the language's "unknown disease" phrase |
| Api.UnknownDiseasesShareTranslation | api.py:315-342 | in gu or hi, every name outside the three known diseases gets the same fallback text |
| Api.WeatherNotFoundIff | api.py:894-985 | the weather handler says "not found" exactly when the extractor found nothing |
| Api.CommodityDistrict | api.py:987-1005 | the price lookup is narrowed to the extracted district exactly when its confidence is at least 0.7 |
| Api.SmartAssistant | api.py:1066-1108 | a file or image goes to disease detection; otherwise blank text is refused; weather keywords win over commodity keywords; everything else is chat, answered only when allowed; the language is `normalize_language_code` of the request's language (default en); a weather reply is the tiered reply for the district extracted from the stripped, lower-cased text; a commodity request is for the district the same extraction gives |
| Api.RoutedWeatherNotFound | api.py:1095-1096 | a request routed to weather is answered "not found" exactly when no district can be extracted from its text |
| Api.WeatherBeforeCommodity | api.py:1095-1098 | a non-blank text with a weather keyword goes to the weather handler, whatever commodity words it holds |
| Legacy.Put | test.py:429-480 | a dictionary assignment keeps the other rows and adds the key; a fresh key goes last, an existing key keeps its place (its first row) and takes the new value, and the length stays the same |
| Legacy.PutAll | test.py:429-480 | after a batch of assignments the keys are the old keys plus the new ones |
| Legacy.PutAllFresh | test.py:429-480 | assigning pairwise-fresh keys appends them in order |
| Legacy.PutRows | test.py:429-480 | the assignment loops compute the batch of assignments |
| Legacy.AllDistricts | test.py:429-480 | `all_districts` has as keys the English names, the Gujarati names and the three variations |
| Legacy.BuildAllDistricts | test.py:429-480 | the three loops build `all_districts` |
| Legacy.FromGujaratiNameInverse | test.py:434-468 | looking a district's Gujarati name up again gives back the district |
| Legacy.GujaratiNameInjective | test.py:434-468 | no two districts share a Gujarati name |
| Legacy.AllKeysDistinct | test.py:429-480 | no key of `all_districts` is written twice |
| Legacy.AllDistrictsInOrder | test.py:429-480 | `all_districts` is the English rows, then the Gujarati rows, then the variations, in insertion order |
| Legacy.ClosestDistrict | test.py:426-508 | every answer has matched text and confidence 1.0 or at least the threshold |
| Legacy.CollectMatches | test.py:486-502 | the fuzzy loop builds exactly the candidate list |
| Legacy.FindClosestDistrict | test.py:426-508 | the resolver as written, over `all_districts` |
| Legacy.ScanLowerKeys | test.py:482-484 | the first-pass loop returns the first key whose lower-case form occurs in the input |
| Legacy.ResolveIn | test.py:482-508 | the two passes, over any table |
| Legacy.NameInInputWins | test.py:482-484 | the first key occurring in the input wins, with confidence 1.0 and the key as matched text |
| Legacy.FuzzyWhenNoNameInInput | test.py:486-508 | when no key occurs in the input, the answer is the first best fuzzy match at or above the threshold, or nothing |
| Legacy.RowHit | test.py:558-560 | no row hit exactly when no row's name occurs in the text; a hit is the district of the first row whose name occurs |
| Legacy.NameHit | test.py:562-564 | no name hit exactly when no lower-case district name occurs in the text; a hit is the first district, in table order, whose name occurs |
| Legacy.ExactMention | test.py:558-574 | no exact mention exactly when no Gujarati name, English name or variation occurs in the command; Gujarati names are tried first, then English names, then variations, each stage only when the earlier ones found nothing |
| Legacy.ExtractLocation | test.py:519-576 | an exact mention is answered with confidence 1.0; without one the answer is the resolver's; confidence is between 0.6 and 1.0 |
| Legacy.ScanRows | test.py:558-560 | the Gujarati-name and variation loops return the first row found |
| Legacy.ScanDistricts | test.py:562-564 | the English-name loop returns the first district found |
| Legacy.ExtractLocationFromCommand | test.py:519-576 | the extractor as written: exact mentions in order, then the resolver |
| Legacy.FallbackIsFuzzy | test.py:576 | after the three exact checks fail, the resolver's first pass cannot match, so the answer is fuzzy |
| Legacy.KeyNotMentioned | test.py:576 | a key of `all_districts` does not occur in a command with no exact mention |
| Legacy.ExtractFallbackIsFuzzy | test.py:576 | with the real tables, an extraction without an exact mention is the fuzzy pass's answer |
| Legacy.WeatherTiers | test.py:747-838 | "not found" exactly when nothing was extracted; a clarification only for a fuzzy match between 0.6 and 0.8 |
| Legacy.CommodityDistrict | test.py:840-846 | the commodity district is the first name occurring in the text, and nothing exactly when none occurs |
| Legacy.CommodityAgreesWithExtraction | test.py:840-846 | on a text naming an English district and no Gujarati one, the commodity scan and the extractor agree, the extractor with confidence 1.0 |
| Legacy.IsWeatherQuery | test.py:578-585 | a weather query exactly when some weather keyword occurs |
| Legacy.IsCommodityQuery | test.py:587-595 | a commodity query exactly when some commodity keyword occurs |
| Legacy.IsQueryAllowed | test.py:365-386 | allowed exactly when some allowed keyword occurs and no restricted one does |
| Legacy.PopularDistricts | test.py:510-517 | the Hindi list for hi, the Gujarati list for gu, the six English names of Ahmedabad, Surat, Vadodara, Rajkot, Gandhinagar and Jamnagar for any other language |
| Legacy.SmartAssistant | test.py:912-953 | the same dispatch as the newer router, with the commodity district taken from the direct name scan; the language is `normalize_language_code` of the request's language; a weather reply is the tiered reply (0.8 / 0.4) for the district this file's extractor finds in the stripped, lower-cased text |
| App.ExtractLocation | app.py:440-447 | the first district whose lower-case name occurs in the lower-cased command, and nothing exactly when none does |
| App.ScanNamesIsFirstHit | app.py:440-447 | the scan returns the district at the first hit |
| App.CommodityInfoIsLocation | app.py:449-454 | the commodity extractor and the location extractor give the same district |
| App.ExtractorsIgnoreCase | app.py:440-454 | both extractors give the same answer for a command and for its lower-cased form |
| App.CommodityScansAgree | app.py:99-103 | the inline scan of `process_text` agrees with the commodity extractor |
| App.ProcessText | app.py:78-124 | a weather reply exactly when a weather word occurs; prices exactly when only a commodity word does; a forecast is for the extracted district; a request to name a district comes only for weather when no district is found; chat exactly when neither keyword list matches |
| App.ProcessVoiceCommand | app.py:291-327 | the same with the shorter voice keyword lists; prices only with a district; a request to name a district comes exactly when the weather or commodity extraction found none; chat exactly when neither keyword list matches |
| App.WeatherBeforeCommodity | app.py:84-98 | a text with both a weather and a commodity word gets a weather reply |
| App.ClimateOnlyInText | app.py:297 | "climate" is a weather request to `process_text` (its list at line 84 has it) but chat as a voice command |
| App.RateOnlyInText | app.py:311 | "rate" is a price request to `process_text` (its list at line 98 has it) but chat as a voice command |
| Report.Lines | api.py:560-565 | each record's block ends with a blank line |
| Report.Entry | api.py:559-565 | the i-th block starts with "i. " and ends with a blank line |
| Report.ListingSnoc | api.py:559-565 | one more record appends its numbered block |
| Report.ListingNumbered | api.py:559-561 | the blocks are numbered from 1 |
| Report.MoreItems | api.py:567-568 | the "more items" line appears with the count of hidden records exactly above five records |
| Report.NoDataIff | api.py:551-552 | the fixed "no data" message is returned exactly when there are no records |
| Report.FormattedParts | api.py:550-572 | a non-empty reply is a header and listing ending in a blank line, then the "more items" line, then the note |
| Report.FewRecordsNoMore | api.py:567-568 | five or fewer records give no "more items" line |
| Report.ManyRecordsMore | api.py:567-568 | more than five records end the reply with the count of the rest |
| Report.MoreItemsIff | api.py:567-568 | the reply mentions more items exactly when there are more than five records |
| Report.OnlyFirstFiveShown | api.py:559 | two record lists of the same length that agree on their first five give the same reply |
| Report.AppendListing | api.py:559-565 | the listing loop appends the numbered blocks of the first `count` records |
| Report.FormatCommodityResponse | api.py:550-572 | the formatter as written computes the reply; the `TestAppLayout` case is the one of test.py:343-363 and app.py:374-395 (a date line in the title, no arrival date, no closing note) |

## Left out

- Network and I/O: weather and commodity fetches, the Claude chat call, the
  translation service, image decoding and the disease model are not modelled. A
  route records which handler is reached and what it is given. The fetch's own
  error path (the weather handler's 500 when no data arrives) is not modelled.
- Exceptions: the `try`/`except` wrappers that answer with status 500 are not modelled.
- Replies are not translated. `translate_text` is a service call.
- `test.py`'s `translate_disease_text` calls a service and is not modelled.
- Character handling is ASCII only: `lower()` maps only A–Z, and `strip()` and
  `split()` treat only ASCII white space as white space.
- Matching.Similarity: `difflib.SequenceMatcher.ratio` is an opaque parameter. Only
  its range [0, 1] is known, so no property of a particular score is proved.
- The rows of `DISTRICT_NAME_VARIATIONS`, the keyword lists, the popular lists and
  the disease texts in Gujarati and Hindi are kept as the character sequences the
  file holds. No property depends on what they spell.
- Duplicate keys of `DISTRICT_NAME_VARIATIONS` ("rajkot", "mehsana") appear once, at
  their first position. The later entries map to the same districts.
- The resolvers take their tables as parameters. The router and the instance lemmas
  pass the real tables.
- `get_commodity_prices_internal`, with its record selection by district and date,
  is not modelled. The commodity route records only the district filter.
- Records are maps from field names to strings. Absent fields print "N/A".
  Districts and dates are strings, and "empty" stands for Python's falsy.
- `format_weather_response` is not modelled. A weather route ends at the tiered
  reply.
- Coordinates are not modelled. `GUJARAT_DISTRICTS` is kept only as its ordered
  keys.
- Image conversion with PIL, file-size and dimension limits, and `find_free_port`
  are library or system I/O and are not modelled.
- The remaining routes of the three services (speech, text-to-speech, health,
  index, direct weather and price endpoints) are not modelled.
