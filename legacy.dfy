/** test.py, the older router: the same routes as api.py with a simpler
    resolver, an extractor that looks for exact mentions first, and a
    commodity handler that only scans for English district names. */
module Legacy {
  import opened Strings
  import opened Ranking
  import opened Common
  import opened Matching
  import opened Routing

  /** The Gujarati-script name of each district (test.py:434-468, repeated
      word for word at 522-556). */
  function GujaratiName(d: District): string
  {
    match d
    case Ahmedabad => "\U{A85}\U{AAE}\U{AA6}\U{ABE}\U{AB5}\U{ABE}\U{AA6}"
    case Amreli => "\U{A85}\U{AAE}\U{AB0}\U{AC7}\U{AB2}\U{AC0}"
    case Anand => "\U{A86}\U{AA3}\U{A82}\U{AA6}"
    case Aravalli => "\U{A85}\U{AB0}\U{ABE}\U{AB5}\U{AB2}\U{AC0}"
    case Banaskantha => "\U{AAC}\U{AA8}\U{ABE}\U{AB8}\U{A95}\U{ABE}\U{A82}\U{AA0}\U{ABE}"
    case Bharuch => "\U{AAD}\U{AB0}\U{AC2}\U{A9A}"
    case Bhavnagar => "\U{AAD}\U{ABE}\U{AB5}\U{AA8}\U{A97}\U{AB0}"
    case Botad => "\U{AAC}\U{ACB}\U{A9F}\U{ABE}\U{AA6}"
    case ChhotaUdaipur => "\U{A9B}\U{ACB}\U{A9F}\U{ABE} \U{A89}\U{AA6}\U{AAF}\U{AAA}\U{AC1}\U{AB0}"
    case Dahod => "\U{AA6}\U{ABE}\U{AB9}\U{ACB}\U{AA6}"
    case Dang => "\U{AA6}\U{ABE}\U{A82}\U{A97}"
    case DevbhoomiDwarka => "\U{AA6}\U{AC7}\U{AB5}\U{AAD}\U{AC2}\U{AAE}\U{ABF} \U{AA6}\U{ACD}\U{AB5}\U{ABE}\U{AB0}\U{A95}\U{ABE}"
    case Gandhinagar => "\U{A97}\U{ABE}\U{A82}\U{AA7}\U{AC0}\U{AA8}\U{A97}\U{AB0}"
    case GirSomnath => "\U{A97}\U{AC0}\U{AB0} \U{AB8}\U{ACB}\U{AAE}\U{AA8}\U{ABE}\U{AA5}"
    case Jamnagar => "\U{A9C}\U{ABE}\U{AAE}\U{AA8}\U{A97}\U{AB0}"
    case Junagadh => "\U{A9C}\U{AC2}\U{AA8}\U{ABE}\U{A97}\U{AA2}"
    case Kheda => "\U{A96}\U{AC7}\U{AA1}\U{ABE}"
    case Kutch => "\U{A95}\U{A9A}\U{ACD}\U{A9B}"
    case Mahisagar => "\U{AAE}\U{AB9}\U{ABF}\U{AB8}\U{ABE}\U{A97}\U{AB0}"
    case Mehsana => "\U{AAE}\U{AB9}\U{AC7}\U{AB8}\U{ABE}\U{AA3}\U{ABE}"
    case Morbi => "\U{AAE}\U{ACB}\U{AB0}\U{AAC}\U{AC0}"
    case Narmada => "\U{AA8}\U{AB0}\U{ACD}\U{AAE}\U{AA6}\U{ABE}"
    case Navsari => "\U{AA8}\U{AB5}\U{AB8}\U{ABE}\U{AB0}\U{AC0}"
    case Panchmahal => "\U{AAA}\U{A82}\U{A9A}\U{AAE}\U{AB9}\U{ABE}\U{AB2}"
    case Patan => "\U{AAA}\U{ABE}\U{A9F}\U{AA3}"
    case Porbandar => "\U{AAA}\U{ACB}\U{AB0}\U{AAC}\U{A82}\U{AA6}\U{AB0}"
    case Rajkot => "\U{AB0}\U{ABE}\U{A9C}\U{A95}\U{ACB}\U{A9F}"
    case Sabarkantha => "\U{AB8}\U{ABE}\U{AAC}\U{AB0}\U{A95}\U{ABE}\U{A82}\U{AA0}\U{ABE}"
    case Surat => "\U{AB8}\U{AC1}\U{AB0}\U{AA4}"
    case Surendranagar => "\U{AB8}\U{AC1}\U{AB0}\U{AC7}\U{AA8}\U{ACD}\U{AA6}\U{ACD}\U{AB0}\U{AA8}\U{A97}\U{AB0}"
    case Tapi => "\U{AA4}\U{ABE}\U{AAA}\U{AC0}"
    case Vadodara => "\U{AB5}\U{AA1}\U{ACB}\U{AA6}\U{AB0}\U{ABE}"
    case Valsad => "\U{AB5}\U{AB2}\U{AB8}\U{ABE}\U{AA1}"
  }

  /** gujarati_districts: each district's Gujarati name mapped to it, in the
      key order of GUJARAT_DISTRICTS. */
  const GujaratiNames: seq<Row> := GujaratiRows(Districts)

  function GujaratiRows(ds: seq<District>): (rows: seq<Row>)
    ensures |rows| == |ds|
    ensures forall k :: 0 <= k < |ds| ==> rows[k] == (GujaratiName(ds[k]), ds[k])
  {
    seq(|ds|, k requires 0 <= k < |ds| => (GujaratiName(ds[k]), ds[k]))
  }

  /** district_variations (test.py:473-477, repeated at 566-570). */
  const DistrictVariations: seq<Row> := [
    ("amdavad", Ahmedabad),
    ("baroda", Vadodara),
    ("kachchh", Kutch)
  ]

  /** One row per GUJARAT_DISTRICTS key, mapping the name to itself. */
  function EnglishRows(ds: seq<District>): (rows: seq<Row>)
    ensures |rows| == |ds|
    ensures forall k :: 0 <= k < |ds| ==> rows[k] == (Name(ds[k]), ds[k])
  {
    seq(|ds|, k requires 0 <= k < |ds| => (Name(ds[k]), ds[k]))
  }

  /** The keys of a dictionary kept as rows in insertion order. */
  function Keys(table: seq<Row>): set<string>
  {
    set j | 0 <= j < |table| :: table[j].0
  }

  /** `table[key] = value` on a Python dict: an existing key keeps its
      place and takes the new value, a new key goes last. */
  function Put(table: seq<Row>, key: string, value: District): (r: seq<Row>)
    ensures |table| <= |r| <= |table| + 1
    ensures (key, value) in r
    ensures forall j :: 0 <= j < |table| && table[j].0 != key ==> r[j] == table[j]
    ensures Keys(r) == Keys(table) + {key}
    ensures key !in Keys(table) ==> r == table + [(key, value)]
    ensures key in Keys(table) ==> |r| == |table|
    ensures FirstHit(table, KeyIs(key)).Some? ==>
      r == table[FirstHit(table, KeyIs(key)).value := (key, value)]
  {
    match FirstHit(table, KeyIs(key))
    case Some(i) =>
      var r := table[i := (key, value)];
      assert r[i] == (key, value);
      assert Keys(r) == Keys(table) + {key} by {
        forall k | k in Keys(table) ensures k in Keys(r) {
          var j :| 0 <= j < |table| && table[j].0 == k;
          assert r[j].0 == k;
        }
      }
      r
    case None =>
      var r := table + [(key, value)];
      assert r[|table|] == (key, value);
      assert Keys(r) == Keys(table) + {key} by {
        forall k | k in Keys(table) ensures k in Keys(r) {
          var j :| 0 <= j < |table| && table[j].0 == k;
          assert r[j].0 == k;
        }
      }
      r
  }

  /** The rows put one after another, in order. */
  function PutAll(table: seq<Row>, rows: seq<Row>): (r: seq<Row>)
    ensures Keys(r) == Keys(table) + Keys(rows)
  {
    if rows == [] then table
    else
      var last := rows[|rows| - 1];
      var r := Put(PutAll(table, rows[..|rows| - 1]), last.0, last.1);
      assert Keys(rows) == Keys(rows[..|rows| - 1]) + {last.0} by {
        forall k | k in Keys(rows) ensures k in Keys(rows[..|rows| - 1]) + {last.0} {
          var j :| 0 <= j < |rows| && rows[j].0 == k;
          if j < |rows| - 1 {
            assert rows[..|rows| - 1][j].0 == k;
          }
        }
      }
      r
  }

  /** No key occurs twice. */
  ghost predicate KeysDistinct(table: seq<Row>) {
    forall i, j :: 0 <= i < j < |table| ==> table[i].0 != table[j].0
  }

  lemma KeysDistinctPrefix(table: seq<Row>, m: nat)
    requires KeysDistinct(table) && m <= |table|
    ensures KeysDistinct(table[..m])
  {
    forall i, j | 0 <= i < j < m ensures table[..m][i].0 != table[..m][j].0 {
      assert table[..m][i] == table[i] && table[..m][j] == table[j];
    }
  }

  /** Putting rows whose keys are all new, and new to each other, appends them. */
  lemma {:induction false} PutAllFresh(table: seq<Row>, rows: seq<Row>)
    requires KeysDistinct(table + rows)
    ensures PutAll(table, rows) == table + rows
  {
    if rows != [] {
      var n := |rows| - 1;
      LastKeyFresh(table, rows);
      PutAllFresh(table, rows[..n]);
      assert table + rows[..n] + [rows[n]] == table + rows;
    }
  }

  /** With distinct keys, the last row's key is new to everything before it,
      and the rows before it keep distinct keys. */
  lemma LastKeyFresh(table: seq<Row>, rows: seq<Row>)
    requires rows != [] && KeysDistinct(table + rows)
    ensures KeysDistinct(table + rows[..|rows| - 1])
    ensures rows[|rows| - 1].0 !in Keys(table + rows[..|rows| - 1])
  {
    var n := |rows| - 1;
    var s := table + rows;
    assert table + rows[..n] == s[..|table| + n];
    KeysDistinctPrefix(s, |table| + n);
    forall j | 0 <= j < |table| + n ensures (table + rows[..n])[j].0 != rows[n].0 {
      assert (table + rows[..n])[j] == s[j];
      assert rows[n] == s[|table| + n];
    }
  }

  /** Putting one more row of `rows` extends the result by one Put. */
  lemma PutAllStep(table: seq<Row>, rows: seq<Row>, i: nat)
    requires i < |rows|
    ensures PutAll(table, rows[..i + 1]) == Put(PutAll(table, rows[..i]), rows[i].0, rows[i].1)
  {
    assert rows[..i + 1][..i] == rows[..i];
  }

  /** The loop `for key, value in rows: table[key] = value`. */
  method PutRows(table: seq<Row>, rows: seq<Row>) returns (r: seq<Row>)
    ensures r == PutAll(table, rows)
  {
    r := table;
    var i := 0;
    while i < |rows|
      invariant 0 <= i <= |rows|
      invariant r == PutAll(table, rows[..i])
    {
      var (key, value) := rows[i];
      PutAllStep(table, rows, i);
      r := Put(r, key, value);
      i := i + 1;
    }
    assert rows[..i] == rows;
  }

  /** The all_districts dictionary of find_closest_district: the English
      names, the Gujarati names, then the variations, put in that order. */
  function AllDistricts(gujarati: seq<Row>, variations: seq<Row>): (table: seq<Row>)
    ensures Keys(table) == Keys(EnglishRows(Districts)) + Keys(gujarati) + Keys(variations)
  {
    PutAll(PutAll(PutAll([], EnglishRows(Districts)), gujarati), variations)
  }

  /** find_closest_district's three filling loops. */
  method BuildAllDistricts(gujarati: seq<Row>, variations: seq<Row>) returns (allDistricts: seq<Row>)
    ensures allDistricts == AllDistricts(gujarati, variations)
  {
    allDistricts := PutRows([], EnglishRows(Districts));
    allDistricts := PutRows(allDistricts, gujarati);
    allDistricts := PutRows(allDistricts, variations);
  }

  lemma NameStartsUpper(d: District)
    ensures |Name(d)| > 0 && 'A' <= Name(d)[0] <= 'Z'
  {
  }

  lemma GujaratiNameStartsGujarati(d: District)
    ensures |GujaratiName(d)| > 0 && '\U{0A80}' <= GujaratiName(d)[0]
  {
  }

  /** The district whose Gujarati name is `s`, if any. */
  function FromGujaratiName(s: string): (d: Option<District>)
  {
    match s
    case "\U{A85}\U{AAE}\U{AA6}\U{ABE}\U{AB5}\U{ABE}\U{AA6}" => Some(Ahmedabad)
    case "\U{A85}\U{AAE}\U{AB0}\U{AC7}\U{AB2}\U{AC0}" => Some(Amreli)
    case "\U{A86}\U{AA3}\U{A82}\U{AA6}" => Some(Anand)
    case "\U{A85}\U{AB0}\U{ABE}\U{AB5}\U{AB2}\U{AC0}" => Some(Aravalli)
    case "\U{AAC}\U{AA8}\U{ABE}\U{AB8}\U{A95}\U{ABE}\U{A82}\U{AA0}\U{ABE}" => Some(Banaskantha)
    case "\U{AAD}\U{AB0}\U{AC2}\U{A9A}" => Some(Bharuch)
    case "\U{AAD}\U{ABE}\U{AB5}\U{AA8}\U{A97}\U{AB0}" => Some(Bhavnagar)
    case "\U{AAC}\U{ACB}\U{A9F}\U{ABE}\U{AA6}" => Some(Botad)
    case "\U{A9B}\U{ACB}\U{A9F}\U{ABE} \U{A89}\U{AA6}\U{AAF}\U{AAA}\U{AC1}\U{AB0}" => Some(ChhotaUdaipur)
    case "\U{AA6}\U{ABE}\U{AB9}\U{ACB}\U{AA6}" => Some(Dahod)
    case "\U{AA6}\U{ABE}\U{A82}\U{A97}" => Some(Dang)
    case "\U{AA6}\U{AC7}\U{AB5}\U{AAD}\U{AC2}\U{AAE}\U{ABF} \U{AA6}\U{ACD}\U{AB5}\U{ABE}\U{AB0}\U{A95}\U{ABE}" => Some(DevbhoomiDwarka)
    case "\U{A97}\U{ABE}\U{A82}\U{AA7}\U{AC0}\U{AA8}\U{A97}\U{AB0}" => Some(Gandhinagar)
    case "\U{A97}\U{AC0}\U{AB0} \U{AB8}\U{ACB}\U{AAE}\U{AA8}\U{ABE}\U{AA5}" => Some(GirSomnath)
    case "\U{A9C}\U{ABE}\U{AAE}\U{AA8}\U{A97}\U{AB0}" => Some(Jamnagar)
    case "\U{A9C}\U{AC2}\U{AA8}\U{ABE}\U{A97}\U{AA2}" => Some(Junagadh)
    case "\U{A96}\U{AC7}\U{AA1}\U{ABE}" => Some(Kheda)
    case "\U{A95}\U{A9A}\U{ACD}\U{A9B}" => Some(Kutch)
    case "\U{AAE}\U{AB9}\U{ABF}\U{AB8}\U{ABE}\U{A97}\U{AB0}" => Some(Mahisagar)
    case "\U{AAE}\U{AB9}\U{AC7}\U{AB8}\U{ABE}\U{AA3}\U{ABE}" => Some(Mehsana)
    case "\U{AAE}\U{ACB}\U{AB0}\U{AAC}\U{AC0}" => Some(Morbi)
    case "\U{AA8}\U{AB0}\U{ACD}\U{AAE}\U{AA6}\U{ABE}" => Some(Narmada)
    case "\U{AA8}\U{AB5}\U{AB8}\U{ABE}\U{AB0}\U{AC0}" => Some(Navsari)
    case "\U{AAA}\U{A82}\U{A9A}\U{AAE}\U{AB9}\U{ABE}\U{AB2}" => Some(Panchmahal)
    case "\U{AAA}\U{ABE}\U{A9F}\U{AA3}" => Some(Patan)
    case "\U{AAA}\U{ACB}\U{AB0}\U{AAC}\U{A82}\U{AA6}\U{AB0}" => Some(Porbandar)
    case "\U{AB0}\U{ABE}\U{A9C}\U{A95}\U{ACB}\U{A9F}" => Some(Rajkot)
    case "\U{AB8}\U{ABE}\U{AAC}\U{AB0}\U{A95}\U{ABE}\U{A82}\U{AA0}\U{ABE}" => Some(Sabarkantha)
    case "\U{AB8}\U{AC1}\U{AB0}\U{AA4}" => Some(Surat)
    case "\U{AB8}\U{AC1}\U{AB0}\U{AC7}\U{AA8}\U{ACD}\U{AA6}\U{ACD}\U{AB0}\U{AA8}\U{A97}\U{AB0}" => Some(Surendranagar)
    case "\U{AA4}\U{ABE}\U{AAA}\U{AC0}" => Some(Tapi)
    case "\U{AB5}\U{AA1}\U{ACB}\U{AA6}\U{AB0}\U{ABE}" => Some(Vadodara)
    case "\U{AB5}\U{AB2}\U{AB8}\U{ABE}\U{AA1}" => Some(Valsad)
    case _ => None
  }

  /** Looking a district's Gujarati name up gives the district back. */
  lemma FromGujaratiNameInverse(d: District)
    ensures FromGujaratiName(GujaratiName(d)) == Some(d)
  {
    if Position(d) < 10 {
      FromGujaratiNameInverseA(d);
    } else if Position(d) < 17 {
      FromGujaratiNameInverseB(d);
    } else if Position(d) < 23 {
      FromGujaratiNameInverseC(d);
    } else if Position(d) < 27 {
      FromGujaratiNameInverseD(d);
    } else if Position(d) < 30 {
      FromGujaratiNameInverseE(d);
    } else {
      FromGujaratiNameInverseF(d);
    }
  }

  lemma FromGujaratiNameInverseA(d: District)
    requires 0 <= Position(d) < 10
    ensures FromGujaratiName(GujaratiName(d)) == Some(d)
  {
    match d
    case Ahmedabad =>
    case Amreli =>
    case Anand =>
    case Aravalli =>
    case Banaskantha =>
    case Bharuch =>
    case Bhavnagar =>
    case Botad =>
    case ChhotaUdaipur =>
    case Dahod =>
  }

  lemma FromGujaratiNameInverseB(d: District)
    requires 10 <= Position(d) < 17
    ensures FromGujaratiName(GujaratiName(d)) == Some(d)
  {
    match d
    case Dang =>
    case DevbhoomiDwarka =>
    case Gandhinagar =>
    case GirSomnath =>
    case Jamnagar =>
    case Junagadh =>
    case Kheda =>
  }

  lemma FromGujaratiNameInverseC(d: District)
    requires 17 <= Position(d) < 23
    ensures FromGujaratiName(GujaratiName(d)) == Some(d)
  {
    match d
    case Kutch =>
    case Mahisagar =>
    case Mehsana =>
    case Morbi =>
    case Narmada =>
    case Navsari =>
  }

  lemma FromGujaratiNameInverseD(d: District)
    requires 23 <= Position(d) < 27
    ensures FromGujaratiName(GujaratiName(d)) == Some(d)
  {
    match d
    case Panchmahal =>
    case Patan =>
    case Porbandar =>
    case Rajkot =>
  }

  lemma FromGujaratiNameInverseE(d: District)
    requires 27 <= Position(d) < 30
    ensures FromGujaratiName(GujaratiName(d)) == Some(d)
  {
    match d
    case Sabarkantha =>
    case Surat =>
    case Surendranagar =>
  }

  lemma FromGujaratiNameInverseF(d: District)
    requires 30 <= Position(d) < 33
    ensures FromGujaratiName(GujaratiName(d)) == Some(d)
  {
    match d
    case Tapi =>
    case Vadodara =>
    case Valsad =>
  }

  /** Different districts have different Gujarati names. */
  lemma GujaratiNameInjective(d: District, e: District)
    requires GujaratiName(d) == GujaratiName(e)
    ensures d == e
  {
    FromGujaratiNameInverse(d);
    FromGujaratiNameInverse(e);
  }

  /** Within each of the three groups the keys differ, and the groups are
      told apart by their first letter: an ASCII capital, a Gujarati letter,
      a lower-case ASCII letter. */
  lemma AllKeysDistinct()
    ensures KeysDistinct(EnglishRows(Districts) + GujaratiNames + DistrictVariations)
  {
    var s := EnglishRows(Districts) + GujaratiNames + DistrictVariations;
    forall i, j | 0 <= i < j < |s|
      ensures s[i].0 != s[j].0
    {
      KeyPairDistinct(i, j);
    }
  }

  lemma KeyPairDistinct(i: nat, j: nat)
    requires i < j < |EnglishRows(Districts) + GujaratiNames + DistrictVariations|
    ensures (EnglishRows(Districts) + GujaratiNames + DistrictVariations)[i].0
      != (EnglishRows(Districts) + GujaratiNames + DistrictVariations)[j].0
  {
    var n := |Districts|;
    if j < n {
      EnglishKeysDistinct(i, j);
    } else if n <= i && j < 2 * n {
      GujaratiKeysDistinct(i - n, j - n);
    } else {
      KeyStart(i);
      KeyStart(j);
    }
  }

  lemma EnglishKeysDistinct(i: nat, j: nat)
    requires i < j < |Districts|
    ensures (EnglishRows(Districts) + GujaratiNames + DistrictVariations)[i].0
      != (EnglishRows(Districts) + GujaratiNames + DistrictVariations)[j].0
  {
    var s := EnglishRows(Districts) + GujaratiNames + DistrictVariations;
    DistrictsDistinct();
    assert s[i].0 == GujaratDistricts[i] && s[j].0 == GujaratDistricts[j];
  }

  lemma GujaratiKeysDistinct(i: nat, j: nat)
    requires i < j < |Districts|
    ensures (EnglishRows(Districts) + GujaratiNames + DistrictVariations)[|Districts| + i].0
      != (EnglishRows(Districts) + GujaratiNames + DistrictVariations)[|Districts| + j].0
  {
    var s := EnglishRows(Districts) + GujaratiNames + DistrictVariations;
    var n := |Districts|;
    assert s[n + i] == GujaratiNames[i] && s[n + j] == GujaratiNames[j];
    PositionInverse(i);
    PositionInverse(j);
    if GujaratiNames[i].0 == GujaratiNames[j].0 {
      GujaratiNameInjective(Districts[i], Districts[j]);
    }
  }

  /** The first letter of each key of the concatenated table. */
  lemma KeyStart(k: nat)
    requires k < |EnglishRows(Districts) + GujaratiNames + DistrictVariations|
    ensures (EnglishRows(Districts) + GujaratiNames + DistrictVariations)[k].0 != []
    ensures k < |Districts| ==> 'A' <= (EnglishRows(Districts) + GujaratiNames + DistrictVariations)[k].0[0] <= 'Z'
    ensures |Districts| <= k < 2 * |Districts| ==>
      '\U{0A80}' <= (EnglishRows(Districts) + GujaratiNames + DistrictVariations)[k].0[0]
    ensures 2 * |Districts| <= k ==> 'a' <= (EnglishRows(Districts) + GujaratiNames + DistrictVariations)[k].0[0] <= 'z'
    ensures 2 * |Districts| <= k ==> (EnglishRows(Districts) + GujaratiNames + DistrictVariations)[k] == DistrictVariations[k - 2 * |Districts|]
  {
    var n := |Districts|;
    if k < n {
      NameStartsUpper(Districts[k]);
    } else if k < 2 * n {
      GujaratiNameStartsGujarati(Districts[k - n]);
    }
  }

  /** With test.py's own tables no key repeats, so all_districts holds the
      English names, then the Gujarati names, then the variations, in that
      order: the first pass scans them in that order. */
  lemma AllDistrictsInOrder()
    ensures AllDistricts(GujaratiNames, DistrictVariations)
      == EnglishRows(Districts) + GujaratiNames + DistrictVariations
  {
    var e := EnglishRows(Districts);
    var g := GujaratiNames;
    var s := e + g + DistrictVariations;
    AllKeysDistinct();
    assert [] + e == s[..|e|];
    assert e + g == s[..|e| + |g|];
    KeysDistinctPrefix(s, |e|);
    KeysDistinctPrefix(s, |e| + |g|);
    PutAllFresh([], e);
    assert [] + e == e;
    PutAllFresh(e, g);
    PutAllFresh(e + g, DistrictVariations);
    assert AllDistricts(g, DistrictVariations) == PutAll(PutAll(e, g), DistrictVariations);
  }

  /** find_closest_district's default threshold. */
  const DefaultThreshold: real := 0.6

  /** `name.lower() in user_input_lower` */
  function LowerKeyIn(text: string): Row -> bool
  {
    (row: Row) => Contains(text, Lower(row.0))
  }

  /** find_closest_district: the first name whose lower-case form occurs in
      the input, with full confidence, else the best fuzzy match at or above
      the threshold. */
  function ClosestDistrict(table: seq<Row>, userInput: string, threshold: real, ratio: Ratio): (r: Option<LocationInfo>)
    ensures r.Some? ==> r.value.matchedText.Some?
    ensures r.Some? ==> r.value.confidence == 1.0 || threshold <= r.value.confidence <= 1.0
  {
    var u := LowerStrip(userInput);
    match FirstHit(table, LowerKeyIn(u))
    case Some(i) => Some(LocationInfo(table[i].1, 1.0, Some(table[i].0)))
    case None =>
      var best := FuzzyBest(table, ScoreOf(ratio, u), threshold);
      if best.Some? then
        FuzzyBestSpec(table, ScoreOf(ratio, u), threshold);
        best
      else None
  }

  /** The fuzzy loop as written, scoring against each name's lower-case form. */
  method CollectMatches(table: seq<Row>, u: string, threshold: real, ratio: Ratio)
    returns (bestMatches: seq<LocationInfo>)
    ensures bestMatches == Candidates(table, ScoreOf(ratio, u), threshold)
  {
    bestMatches := [];
    var i := 0;
    while i < |table|
      invariant 0 <= i <= |table|
      invariant bestMatches == Candidates(table[..i], ScoreOf(ratio, u), threshold)
    {
      var (name, englishName) := table[i];
      var fullSimilarity := Similarity(ratio, u, Lower(name));
      var words := Split(u);
      var maxWordSimilarity := MaxWordSimilarity(ratio, words, Lower(name));
      var bestSimilarity := if fullSimilarity >= maxWordSimilarity then fullSimilarity else maxWordSimilarity;
      ScoreLower(ratio, u, name);
      if bestSimilarity >= threshold {
        bestMatches := bestMatches + [LocationInfo(englishName, bestSimilarity, Some(name))];
      }
      CandidatesSnoc(table[..i], table[i], ScoreOf(ratio, u), threshold);
      assert table[..i + 1] == table[..i] + [table[i]];
      i := i + 1;
    }
    assert table[..i] == table;
  }

  /** find_closest_district as written: all_districts is filled, then
      scanned. */
  method FindClosestDistrict(userInput: string, threshold: real, ratio: Ratio)
    returns (r: Option<LocationInfo>)
    ensures r == ClosestDistrict(AllDistricts(GujaratiNames, DistrictVariations), userInput, threshold, ratio)
  {
    var allDistricts := BuildAllDistricts(GujaratiNames, DistrictVariations);
    r := ResolveIn(allDistricts, userInput, threshold, ratio);
  }

  /** The first loop of find_closest_district: the first name whose
      lower-case form occurs in the input. */
  method ScanLowerKeys(table: seq<Row>, u: string) returns (k: Option<nat>)
    ensures k == FirstHit(table, LowerKeyIn(u))
  {
    var i := 0;
    while i < |table|
      invariant 0 <= i <= |table|
      invariant forall j :: 0 <= j < i ==> !LowerKeyIn(u)(table[j])
    {
      var (name, _) := table[i];
      if Contains(u, Lower(name)) {
        assert LowerKeyIn(u)(table[i]);
        return Some(i);
      }
      i := i + 1;
    }
    return None;
  }

  /** The two passes of find_closest_district over a filled table: a loop
      returning on the first name in the input, then the fuzzy loop and a
      stable sort. */
  method ResolveIn(table: seq<Row>, userInput: string, threshold: real, ratio: Ratio)
    returns (r: Option<LocationInfo>)
    ensures r == ClosestDistrict(table, userInput, threshold, ratio)
  {
    var userInputLower := LowerStrip(userInput);
    var hit := ScanLowerKeys(table, userInputLower);
    if hit.Some? {
      var (name, englishName) := table[hit.value];
      return Some(LocationInfo(englishName, 1.0, Some(name)));
    }
    var bestMatches := CollectMatches(table, userInputLower, threshold, ratio);
    if bestMatches != [] {
      bestMatches := SortDescending(bestMatches, Confidence);
      return Some(bestMatches[0]);
    }
    return None;
  }


  /** First pass: the first name in table order whose lower-case form occurs
      in the input wins with full confidence. */
  lemma NameInInputWins(table: seq<Row>, userInput: string, threshold: real, ratio: Ratio, i: int)
    requires 0 <= i < |table|
    requires Contains(LowerStrip(userInput), Lower(table[i].0))
    requires forall j :: 0 <= j < i ==> !Contains(LowerStrip(userInput), Lower(table[j].0))
    ensures ClosestDistrict(table, userInput, threshold, ratio) == Some(LocationInfo(table[i].1, 1.0, Some(table[i].0)))
  {
    assert LowerKeyIn(LowerStrip(userInput))(table[i]);
  }

  /** Second pass: with no name in the input, the answer is None exactly when
      every name scores below the threshold, and otherwise the first name
      with the highest score. */
  lemma FuzzyWhenNoNameInInput(table: seq<Row>, userInput: string, threshold: real, ratio: Ratio)
    requires forall j :: 0 <= j < |table| ==> !Contains(LowerStrip(userInput), Lower(table[j].0))
    ensures ClosestDistrict(table, userInput, threshold, ratio)
      == FuzzyBest(table, ScoreOf(ratio, LowerStrip(userInput)), threshold)
    ensures ClosestDistrict(table, userInput, threshold, ratio).None?
      <==> forall j :: 0 <= j < |table| ==> Score(ratio, LowerStrip(userInput), table[j].0) < threshold
  {
    var u := LowerStrip(userInput);
    assert forall j :: 0 <= j < |table| ==> !LowerKeyIn(u)(table[j]);
    FuzzyBestSpec(table, ScoreOf(ratio, u), threshold);
  }

  /** The canonical district of the first row whose name occurs in the text. */
  function RowHit(rows: seq<Row>, u: string): (d: Option<District>)
    ensures d.None? <==> forall j :: 0 <= j < |rows| ==> !Contains(u, rows[j].0)
    ensures d.Some? ==>
      exists i :: 0 <= i < |rows| && d.value == rows[i].1 && Contains(u, rows[i].0)
        && forall j :: 0 <= j < i ==> !Contains(u, rows[j].0)
  {
    match FirstHit(rows, KeyIn(u))
    case Some(i) => Some(rows[i].1)
    case None =>
      assert forall j :: 0 <= j < |rows| ==> !KeyIn(u)(rows[j]);
      None
  }

  /** The first district whose lower-case name occurs in the text. */
  function NameHit(districts: seq<District>, u: string): (d: Option<District>)
    ensures d.None? <==> forall j :: 0 <= j < |districts| ==> !Contains(u, Lower(Name(districts[j])))
    ensures d.Some? ==>
      exists i :: 0 <= i < |districts| && d.value == districts[i]
        && Contains(u, Lower(Name(districts[i])))
        && forall j :: 0 <= j < i ==> !Contains(u, Lower(Name(districts[j])))
  {
    match FirstHit(districts, NameIn(u))
    case Some(i) => Some(districts[i])
    case None =>
      assert forall j :: 0 <= j < |districts| ==> !NameIn(u)(districts[j]);
      None
  }

  /** The first three stages of extract_location_from_command: a Gujarati
      name, then an English district name, then a variation occurring in the
      cleaned command. */
  function ExactMention(gujarati: seq<Row>, variations: seq<Row>, u: string): (d: Option<District>)
    ensures d.None? <==>
      (forall j :: 0 <= j < |gujarati| ==> !Contains(u, gujarati[j].0))
      && (forall j :: 0 <= j < |Districts| ==> !Contains(u, Lower(Name(Districts[j]))))
      && (forall j :: 0 <= j < |variations| ==> !Contains(u, variations[j].0))
    ensures RowHit(gujarati, u).Some? ==> d == RowHit(gujarati, u)
    ensures RowHit(gujarati, u).None? && NameHit(Districts, u).Some? ==> d == NameHit(Districts, u)
    ensures RowHit(gujarati, u).None? && NameHit(Districts, u).None? ==> d == RowHit(variations, u)
  {
    if RowHit(gujarati, u).Some? then RowHit(gujarati, u)
    else if NameHit(Districts, u).Some? then NameHit(Districts, u)
    else RowHit(variations, u)
  }

  /** extract_location_from_command: an exact mention with full confidence
      and no matched text, else find_closest_district on the command. */
  function ExtractLocation(gujarati: seq<Row>, variations: seq<Row>, table: seq<Row>, command: string, ratio: Ratio)
    : (r: Option<LocationInfo>)
    ensures r.Some? ==> DefaultThreshold <= r.value.confidence <= 1.0
    ensures r.Some? && r.value.matchedText.None? ==> r.value.confidence == 1.0
    ensures ExactMention(gujarati, variations, LowerStrip(command)).Some? ==>
      r == Some(LocationInfo(ExactMention(gujarati, variations, LowerStrip(command)).value, 1.0, None))
    ensures ExactMention(gujarati, variations, LowerStrip(command)).None? ==>
      r == ClosestDistrict(table, command, DefaultThreshold, ratio)
  {
    match ExactMention(gujarati, variations, LowerStrip(command))
    case Some(d) => Some(LocationInfo(d, 1.0, None))
    case None => ClosestDistrict(table, command, DefaultThreshold, ratio)
  }

  /** A scan over table rows that stops at the first key occurring in the text. */
  method ScanRows(rows: seq<Row>, text: string) returns (k: Option<nat>)
    ensures k == FirstHit(rows, KeyIn(text))
  {
    var i := 0;
    while i < |rows|
      invariant 0 <= i <= |rows|
      invariant forall j :: 0 <= j < i ==> !KeyIn(text)(rows[j])
    {
      if Contains(text, rows[i].0) {
        assert KeyIn(text)(rows[i]);
        return Some(i);
      }
      i := i + 1;
    }
    return None;
  }

  /** A scan over GUJARAT_DISTRICTS' keys (passed as `districts`) that stops
      at the first district passing `hit`; the caller passes NameIn(text),
      "the lower-case name occurs in the text". */
  method ScanDistricts(districts: seq<District>, hit: District -> bool) returns (k: Option<nat>)
    ensures k == FirstHit(districts, hit)
  {
    var i := 0;
    while i < |districts|
      invariant 0 <= i <= |districts|
      invariant forall j :: 0 <= j < i ==> !hit(districts[j])
    {
      if hit(districts[i]) {
        return Some(i);
      }
      i := i + 1;
    }
    return None;
  }

  /** extract_location_from_command as written: three loops that return on
      their first hit, then find_closest_district on the command. */
  method ExtractLocationFromCommand(command: string, ratio: Ratio) returns (r: Option<LocationInfo>)
    ensures r == ExtractLocation(GujaratiNames, DistrictVariations,
      AllDistricts(GujaratiNames, DistrictVariations), command, ratio)
  {
    var gujarati := GujaratiNames;
    var variations := DistrictVariations;
    var commandLower := LowerStrip(command);
    var k := ScanRows(gujarati, commandLower);
    if k.Some? {
      return Some(LocationInfo(gujarati[k.value].1, 1.0, None));
    }
    k := ScanDistricts(Districts, NameIn(commandLower));
    if k.Some? {
      return Some(LocationInfo(Districts[k.value], 1.0, None));
    }
    k := ScanRows(variations, commandLower);
    if k.Some? {
      return Some(LocationInfo(variations[k.value].1, 1.0, None));
    }
    r := FindClosestDistrict(command, DefaultThreshold, ratio);
  }

  ghost predicate LowerCaseKeys(rows: seq<Row>) {
    forall j :: 0 <= j < |rows| ==> Lower(rows[j].0) == rows[j].0
  }

  /** When the extractor falls through to find_closest_district, that
      function's own first pass cannot match: every name it tries was already
      looked for. Its answer is then purely the fuzzy best at 0.6. */
  lemma FallbackIsFuzzy(gujarati: seq<Row>, variations: seq<Row>, command: string, ratio: Ratio)
    requires LowerCaseKeys(gujarati) && LowerCaseKeys(variations)
    requires ExactMention(gujarati, variations, LowerStrip(command)).None?
    ensures ExtractLocation(gujarati, variations, AllDistricts(gujarati, variations), command, ratio)
      == FuzzyBest(AllDistricts(gujarati, variations), ScoreOf(ratio, LowerStrip(command)), DefaultThreshold)
  {
    var u := LowerStrip(command);
    var table := AllDistricts(gujarati, variations);
    forall j | 0 <= j < |table|
      ensures !Contains(u, Lower(table[j].0))
    {
      assert table[j].0 in Keys(table);
      KeyNotMentioned(gujarati, variations, u, table[j].0);
    }
    FuzzyWhenNoNameInInput(table, command, DefaultThreshold, ratio);
  }

  /** Every key of all_districts was already looked for by the extractor. */
  lemma KeyNotMentioned(gujarati: seq<Row>, variations: seq<Row>, u: string, key: string)
    requires LowerCaseKeys(gujarati) && LowerCaseKeys(variations)
    requires ExactMention(gujarati, variations, u).None?
    requires key in Keys(AllDistricts(gujarati, variations))
    ensures !Contains(u, Lower(key))
  {
    var english := EnglishRows(Districts);
    if key in Keys(english) {
      var m :| 0 <= m < |english| && english[m].0 == key;
      EnglishKeyNotMentioned(gujarati, variations, u, m);
    } else if key in Keys(gujarati) {
      var m :| 0 <= m < |gujarati| && gujarati[m].0 == key;
      assert !Contains(u, gujarati[m].0);
      assert Lower(key) == key;
    } else {
      assert key in Keys(variations);
      var m :| 0 <= m < |variations| && variations[m].0 == key;
      assert !Contains(u, variations[m].0);
      assert Lower(key) == key;
    }
  }

  lemma EnglishKeyNotMentioned(gujarati: seq<Row>, variations: seq<Row>, u: string, m: nat)
    requires ExactMention(gujarati, variations, u).None?
    requires m < |Districts|
    ensures !Contains(u, Lower(EnglishRows(Districts)[m].0))
  {
    var d := Districts[m];
    assert !Contains(u, Lower(Name(d)));
    assert EnglishRows(Districts)[m].0 == Name(d);
  }

  /** The Gujarati names contain no ASCII capital. */
  lemma GujaratiNamesLowerCase()
    ensures LowerCaseKeys(GujaratiNames)
  {
    forall j | 0 <= j < |GujaratiNames|
      ensures Lower(GujaratiNames[j].0) == GujaratiNames[j].0
    {
      GujaratiNameLowerCase(Districts[j]);
    }
  }

  lemma GujaratiNameLowerCase(d: District)
    ensures Lower(GujaratiName(d)) == GujaratiName(d)
  {
    if Position(d) < 8 {
      GujaratiNameLowerCaseA(d);
    } else if Position(d) < 16 {
      GujaratiNameLowerCaseB(d);
    } else if Position(d) < 24 {
      GujaratiNameLowerCaseC(d);
    } else {
      GujaratiNameLowerCaseD(d);
    }
  }

  lemma GujaratiNameLowerCaseA(d: District)
    requires 0 <= Position(d) < 8
    ensures Lower(GujaratiName(d)) == GujaratiName(d)
  {
    match d
    case Ahmedabad =>
    case Amreli =>
    case Anand =>
    case Aravalli =>
    case Banaskantha =>
    case Bharuch =>
    case Bhavnagar =>
    case Botad =>
  }

  lemma GujaratiNameLowerCaseB(d: District)
    requires 8 <= Position(d) < 16
    ensures Lower(GujaratiName(d)) == GujaratiName(d)
  {
    match d
    case ChhotaUdaipur =>
    case Dahod =>
    case Dang =>
    case DevbhoomiDwarka =>
    case Gandhinagar =>
    case GirSomnath =>
    case Jamnagar =>
    case Junagadh =>
  }

  lemma GujaratiNameLowerCaseC(d: District)
    requires 16 <= Position(d) < 24
    ensures Lower(GujaratiName(d)) == GujaratiName(d)
  {
    match d
    case Kheda =>
    case Kutch =>
    case Mahisagar =>
    case Mehsana =>
    case Morbi =>
    case Narmada =>
    case Navsari =>
    case Panchmahal =>
  }

  lemma GujaratiNameLowerCaseD(d: District)
    requires 24 <= Position(d) < 33
    ensures Lower(GujaratiName(d)) == GujaratiName(d)
  {
    match d
    case Patan =>
    case Porbandar =>
    case Rajkot =>
    case Sabarkantha =>
    case Surat =>
    case Surendranagar =>
    case Tapi =>
    case Vadodara =>
    case Valsad =>
  }


  lemma DistrictVariationsLowerCase()
    ensures LowerCaseKeys(DistrictVariations)
  {
    assert Lower(DistrictVariations[0].0) == DistrictVariations[0].0;
    assert Lower(DistrictVariations[1].0) == DistrictVariations[1].0;
    assert Lower(DistrictVariations[2].0) == DistrictVariations[2].0;
  }

  /** With test.py's own tables the extractor's fallback is purely fuzzy. */
  lemma ExtractFallbackIsFuzzy(command: string, ratio: Ratio)
    requires ExactMention(GujaratiNames, DistrictVariations, LowerStrip(command)).None?
    ensures ExtractLocation(GujaratiNames, DistrictVariations, AllDistricts(GujaratiNames, DistrictVariations), command, ratio)
      == FuzzyBest(AllDistricts(GujaratiNames, DistrictVariations), ScoreOf(ratio, LowerStrip(command)), DefaultThreshold)
  {
    GujaratiNamesLowerCase();
    DistrictVariationsLowerCase();
    FallbackIsFuzzy(GujaratiNames, DistrictVariations, command, ratio);
  }

  /** handle_weather_query's thresholds: a forecast from 0.8, without
      "did you mean" only at full confidence. */
  const ForecastFrom: real := 0.8
  const ExactFrom: real := 1.0

  /** Every extraction is at least 0.6, so "not found" means nothing was
      extracted, and a request to confirm is only ever made for a fuzzy
      match between 0.6 and 0.8, never for an exact mention. */
  lemma WeatherTiers(gujarati: seq<Row>, variations: seq<Row>, table: seq<Row>, command: string, ratio: Ratio, popular: seq<string>)
    ensures TieredReply(ExtractLocation(gujarati, variations, table, command, ratio), ForecastFrom, ExactFrom, popular).NotFound?
      <==> ExtractLocation(gujarati, variations, table, command, ratio).None?
    ensures TieredReply(ExtractLocation(gujarati, variations, table, command, ratio), ForecastFrom, ExactFrom, popular).Clarify?
      ==> ExtractLocation(gujarati, variations, table, command, ratio).value.matchedText.Some?
    ensures TieredReply(ExtractLocation(gujarati, variations, table, command, ratio), ForecastFrom, ExactFrom, popular).Clarify?
      ==> DefaultThreshold <= ExtractLocation(gujarati, variations, table, command, ratio).value.confidence < ForecastFrom
  {
    NotFoundIffUnresolved(ExtractLocation(gujarati, variations, table, command, ratio), ForecastFrom, ExactFrom, popular);
  }

  /** handle_commodity_query: the first GUJARAT_DISTRICTS key whose
      lower-case form occurs in the text; the resolver is not used. */
  function CommodityDistrict(textLower: string): (d: Option<District>)
    ensures d.Some? ==> Contains(textLower, Lower(Name(d.value)))
    ensures d.Some? ==> forall j :: 0 <= j < Position(d.value) ==> !NameIn(textLower)(Districts[j])
    ensures d.None? <==> forall j :: 0 <= j < |Districts| ==> !Contains(textLower, Lower(Name(Districts[j])))
  {
    match FirstHit(Districts, NameIn(textLower))
    case Some(i) =>
      DistrictsDistinct();
      assert Districts[Position(Districts[i])] == Districts[i];
      assert GujaratDistricts[Position(Districts[i])] == GujaratDistricts[i];
      Some(Districts[i])
    case None =>
      assert forall j :: 0 <= j < |Districts| ==> !NameIn(textLower)(Districts[j]);
      None
  }

  /** The commodity handler and the extractor agree on a text that names an
      English district and no Gujarati one: both pick the first such
      district, the extractor with full confidence. */
  lemma CommodityAgreesWithExtraction(gujarati: seq<Row>, variations: seq<Row>, table: seq<Row>, textLower: string, ratio: Ratio)
    requires LowerStrip(textLower) == textLower
    requires forall j :: 0 <= j < |gujarati| ==> !Contains(textLower, gujarati[j].0)
    requires CommodityDistrict(textLower).Some?
    ensures ExtractLocation(gujarati, variations, table, textLower, ratio)
      == Some(LocationInfo(CommodityDistrict(textLower).value, 1.0, None))
  {
    assert FirstHit(gujarati, KeyIn(textLower)).None?;
  }

  /** is_weather_query */
  const WeatherKeywords: seq<string> := [
    "weather",
    "temperature",
    "rain",
    "forecast",
    "climate",
    "humid",
    "wind",
    "hot",
    "cold",
    "sunny",
    "cloudy",
    "storm",
    "precipitation",
    "degrees",
    "celsius",
    "fahrenheit",
    "mausam",
    "hava",
    "barish",
    "thand",
    "garmi",
    "\U{AB9}\U{AB5}\U{ABE}\U{AAE}\U{ABE}\U{AA8}",
    "\U{AA4}\U{ABE}\U{AAA}\U{AAE}\U{ABE}\U{AA8}",
    "\U{AB5}\U{AB0}\U{AB8}\U{ABE}\U{AA6}",
    "\U{AA0}\U{A82}\U{AA1}\U{AC0}",
    "\U{A97}\U{AB0}\U{AAE}\U{AC0}",
    "\U{A86}\U{AAC}\U{ACB}\U{AB9}\U{AB5}\U{ABE}",
    "\U{AAE}\U{ACC}\U{AB8}\U{AAE}"
  ]

  /** is_commodity_query */
  const CommodityKeywords: seq<string> := [
    "price",
    "commodity",
    "market",
    "cost",
    "rate",
    "mandi",
    "bazaar",
    "sell",
    "buy",
    "crops",
    "vegetables",
    "fruits",
    "agriculture",
    "farming",
    "harvest",
    "produce",
    "wholesale",
    "retail",
    "\U{915}\U{93F}\U{92E}\U{924}",
    "\U{926}\U{93E}\U{92E}",
    "\U{92E}\U{902}\U{921}\U{940}",
    "\U{92C}\U{93E}\U{91C}\U{93E}\U{930}",
    "\U{92B}\U{938}\U{932}",
    "\U{916}\U{947}\U{924}\U{940}",
    "\U{A95}\U{ABF}\U{A82}\U{AAE}\U{AA4}",
    "\U{AA6}\U{AB0}",
    "\U{AAE}\U{ABE}\U{A82}\U{AA1}\U{AC0}",
    "\U{AAC}\U{A9C}\U{ABE}\U{AB0}",
    "\U{AAA}\U{ABE}\U{A95}",
    "\U{A96}\U{AC7}\U{AA4}\U{AC0}"
  ]

  function IsWeatherQuery(textLower: string): (r: bool)
    ensures r <==> exists k :: 0 <= k < |WeatherKeywords| && Contains(textLower, WeatherKeywords[k])
  {
    AnyInIff(WeatherKeywords, textLower);
    AnyIn(WeatherKeywords, textLower)
  }

  function IsCommodityQuery(textLower: string): (r: bool)
    ensures r <==> exists k :: 0 <= k < |CommodityKeywords| && Contains(textLower, CommodityKeywords[k])
  {
    AnyInIff(CommodityKeywords, textLower);
    AnyIn(CommodityKeywords, textLower)
  }

  /** is_query_allowed's lists. */
  const RestrictedKeywords: seq<string> := [
    "joke",
    "story",
    "poem",
    "recipe",
    "song",
    "movie",
    "game",
    "politics",
    "news",
    "religion",
    "philosophy",
    "personal",
    "relationship",
    "advice",
    "programming",
    "code",
    "technology",
    "sports",
    "entertainment",
    "travel",
    "education",
    "history",
    "science",
    "mathematics",
    "literature",
    "art"
  ]

  const AllowedKeywords: seq<string> := [
    "weather",
    "temperature",
    "rain",
    "forecast",
    "climate",
    "humid",
    "wind",
    "price",
    "commodity",
    "market",
    "cost",
    "rate",
    "mandi",
    "bazaar",
    "disease",
    "crop",
    "vegetable",
    "farming",
    "agriculture",
    "plant",
    "\U{AB9}\U{AB5}\U{ABE}\U{AAE}\U{ABE}\U{AA8}",
    "\U{AA4}\U{ABE}\U{AAA}\U{AAE}\U{ABE}\U{AA8}",
    "\U{AB5}\U{AB0}\U{AB8}\U{ABE}\U{AA6}",
    "\U{A95}\U{ABF}\U{A82}\U{AAE}\U{AA4}",
    "\U{AAC}\U{A9C}\U{ABE}\U{AB0}",
    "\U{AB0}\U{ACB}\U{A97}",
    "\U{A96}\U{AC7}\U{AA4}\U{AC0}",
    "\U{92E}\U{94C}\U{938}\U{92E}",
    "\U{924}\U{93E}\U{92A}\U{92E}\U{93E}\U{928}",
    "\U{92C}\U{93E}\U{930}\U{93F}\U{936}",
    "\U{915}\U{940}\U{92E}\U{924}",
    "\U{92C}\U{93E}\U{91C}\U{93E}\U{930}",
    "\U{92C}\U{940}\U{92E}\U{93E}\U{930}\U{940}",
    "\U{916}\U{947}\U{924}\U{940}"
  ]

  /** is_query_allowed: some allowed keyword occurs in the lower-cased text
      and no restricted keyword does. */
  function IsQueryAllowed(text: string): (r: bool)
    ensures r <==>
      (exists k :: 0 <= k < |AllowedKeywords| && Contains(Lower(text), AllowedKeywords[k]))
      && (forall k :: 0 <= k < |RestrictedKeywords| ==> !Contains(Lower(text), RestrictedKeywords[k]))
  {
    var textLower := Lower(text);
    AnyInIff(RestrictedKeywords, textLower);
    AnyInIff(AllowedKeywords, textLower);
    AnyIn(AllowedKeywords, textLower) && !AnyIn(RestrictedKeywords, textLower)
  }

  /** get_popular_districts_list's Hindi and Gujarati lists, as the file holds them. */
  const PopularHindi: seq<string> := ["\U{905}\U{939}\U{92E}\U{926}\U{93E}\U{92C}\U{93E}\U{926}", "\U{938}\U{942}\U{930}\U{924}", "\U{935}\U{921}\U{94B}\U{926}\U{930}\U{93E}", "\U{930}\U{93E}\U{91C}\U{915}\U{94B}\U{91F}", "\U{917}\U{93E}\U{902}\U{927}\U{940}\U{928}\U{917}\U{930}", "\U{91C}\U{93E}\U{92E}\U{928}\U{917}\U{930}"]
  const PopularGujarati: seq<string> := ["\U{A85}\U{AAE}\U{AA6}\U{ABE}\U{AB5}\U{ABE}\U{AA6}", "\U{AB8}\U{AC1}\U{AB0}\U{AA4}", "\U{AB5}\U{AA1}\U{ACB}\U{AA6}\U{AB0}\U{ABE}", "\U{AB0}\U{ABE}\U{A9C}\U{A95}\U{ACB}\U{A9F}", "\U{A97}\U{ABE}\U{A82}\U{AA7}\U{AC0}\U{AA8}\U{A97}\U{AB0}", "\U{A9C}\U{ABE}\U{AAE}\U{AA8}\U{A97}\U{AB0}"]

  /** get_popular_districts_list: the language's list, English for any other code. */
  function PopularDistricts(language: string): (names: seq<string>)
    ensures language == "hi" ==> names == PopularHindi
    ensures language == "gu" ==> names == PopularGujarati
    ensures language !in {"hi", "gu"} ==> names == Names(PopularEnglish)
    ensures |names| == 6
  {
    var popular := map["en" := Names(PopularEnglish), "hi" := PopularHindi, "gu" := PopularGujarati];
    if language in popular then popular[language] else popular["en"]
  }


  /** smart_assistant, as in api.py, with this file's handlers. */
  function SmartAssistant(request: Request, ratio: Ratio): (d: Dispatch)
    ensures d.language in {"en", "hi", "gu"}
    ensures d.language == NormalizeLanguageCode(Get(request.data, "language", "en"))
    ensures d.route.Weather? ==>
      d.route.reply == TieredReply(ExtractLocation(GujaratiNames, DistrictVariations, AllDistricts(GujaratiNames, DistrictVariations),
        Lower(Strip(Get(request.data, "text", ""))), ratio), ForecastFrom, ExactFrom, PopularDistricts(d.language))
    ensures d.route.DiseaseDetection? <==> request.hasFile || "image" in request.data
    ensures d.route.MissingInput? <==>
      !(request.hasFile || "image" in request.data) && Strip(Get(request.data, "text", "")) == []
    ensures d.route.Weather? ==> IsWeatherQuery(Lower(Strip(Get(request.data, "text", ""))))
    ensures d.route.Commodity? ==>
      !IsWeatherQuery(Lower(Strip(Get(request.data, "text", ""))))
      && IsCommodityQuery(Lower(Strip(Get(request.data, "text", ""))))
      && d.route.district == CommodityDistrict(Lower(Strip(Get(request.data, "text", ""))))
    ensures d.route.Chat? ==>
      !IsWeatherQuery(Lower(Strip(Get(request.data, "text", ""))))
      && !IsCommodityQuery(Lower(Strip(Get(request.data, "text", ""))))
      && (d.route.allowed <==> IsQueryAllowed(Strip(Get(request.data, "text", ""))))
  {
    var language := NormalizeLanguageCode(Get(request.data, "language", "en"));
    if request.hasFile || "image" in request.data then Dispatch(language, DiseaseDetection)
    else
      var text := Strip(Get(request.data, "text", ""));
      if text == [] then Dispatch(language, MissingInput)
      else
        var textLower := Lower(text);
        if IsWeatherQuery(textLower) then
          var info := ExtractLocation(GujaratiNames, DistrictVariations,
            AllDistricts(GujaratiNames, DistrictVariations), textLower, ratio);
          Dispatch(language, Weather(TieredReply(info, ForecastFrom, ExactFrom, PopularDistricts(language))))
        else if IsCommodityQuery(textLower) then
          Dispatch(language, Commodity(CommodityDistrict(textLower)))
        else
          Dispatch(language, Chat(IsQueryAllowed(text)))
  }
}
