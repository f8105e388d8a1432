/** What api.py and test.py share word for word: the 33 district names, the
    language-code normaliser and the upload file-name check. */
module Common {
  import opened Strings

  datatype Option<T> = None | Some(value: T)

  /** A canonical district: one key of GUJARAT_DISTRICTS, so the weather
      handler's coordinate lookup by its name never fails. */
  datatype District =
    | Ahmedabad
    | Amreli
    | Anand
    | Aravalli
    | Banaskantha
    | Bharuch
    | Bhavnagar
    | Botad
    | ChhotaUdaipur
    | Dahod
    | Dang
    | DevbhoomiDwarka
    | Gandhinagar
    | GirSomnath
    | Jamnagar
    | Junagadh
    | Kheda
    | Kutch
    | Mahisagar
    | Mehsana
    | Morbi
    | Narmada
    | Navsari
    | Panchmahal
    | Patan
    | Porbandar
    | Rajkot
    | Sabarkantha
    | Surat
    | Surendranagar
    | Tapi
    | Vadodara
    | Valsad

  /** The district's key in GUJARAT_DISTRICTS. */
  function Name(d: District): string
  {
    match d
    case Ahmedabad => "Ahmedabad"
    case Amreli => "Amreli"
    case Anand => "Anand"
    case Aravalli => "Aravalli"
    case Banaskantha => "Banaskantha"
    case Bharuch => "Bharuch"
    case Bhavnagar => "Bhavnagar"
    case Botad => "Botad"
    case ChhotaUdaipur => "Chhota Udaipur"
    case Dahod => "Dahod"
    case Dang => "Dang"
    case DevbhoomiDwarka => "Devbhoomi Dwarka"
    case Gandhinagar => "Gandhinagar"
    case GirSomnath => "Gir Somnath"
    case Jamnagar => "Jamnagar"
    case Junagadh => "Junagadh"
    case Kheda => "Kheda"
    case Kutch => "Kutch"
    case Mahisagar => "Mahisagar"
    case Mehsana => "Mehsana"
    case Morbi => "Morbi"
    case Narmada => "Narmada"
    case Navsari => "Navsari"
    case Panchmahal => "Panchmahal"
    case Patan => "Patan"
    case Porbandar => "Porbandar"
    case Rajkot => "Rajkot"
    case Sabarkantha => "Sabarkantha"
    case Surat => "Surat"
    case Surendranagar => "Surendranagar"
    case Tapi => "Tapi"
    case Vadodara => "Vadodara"
    case Valsad => "Valsad"
  }

  /** The districts in the key order of GUJARAT_DISTRICTS. */
  const Districts: seq<District> := [
    Ahmedabad, Amreli, Anand, Aravalli, Banaskantha, Bharuch, Bhavnagar, Botad,
    ChhotaUdaipur, Dahod, Dang, DevbhoomiDwarka, Gandhinagar, GirSomnath, Jamnagar,
    Junagadh, Kheda, Kutch, Mahisagar, Mehsana, Morbi, Narmada, Navsari, Panchmahal,
    Patan, Porbandar, Rajkot, Sabarkantha, Surat, Surendranagar, Tapi, Vadodara, Valsad
  ]

  /** The position of a district in Districts. */
  function Position(d: District): (k: nat)
    ensures k < |Districts| && Districts[k] == d
  {
    match d
    case Ahmedabad => 0
    case Amreli => 1
    case Anand => 2
    case Aravalli => 3
    case Banaskantha => 4
    case Bharuch => 5
    case Bhavnagar => 6
    case Botad => 7
    case ChhotaUdaipur => 8
    case Dahod => 9
    case Dang => 10
    case DevbhoomiDwarka => 11
    case Gandhinagar => 12
    case GirSomnath => 13
    case Jamnagar => 14
    case Junagadh => 15
    case Kheda => 16
    case Kutch => 17
    case Mahisagar => 18
    case Mehsana => 19
    case Morbi => 20
    case Narmada => 21
    case Navsari => 22
    case Panchmahal => 23
    case Patan => 24
    case Porbandar => 25
    case Rajkot => 26
    case Sabarkantha => 27
    case Surat => 28
    case Surendranagar => 29
    case Tapi => 30
    case Vadodara => 31
    case Valsad => 32
  }

  /** Position undoes indexing: no district occurs twice in Districts. */
  lemma PositionInverse(k: nat)
    requires k < |Districts|
    ensures Position(Districts[k]) == k
  {
    if k < 6 {
      PositionInverseA(k);
    } else if k < 12 {
      PositionInverseB(k);
    } else if k < 18 {
      PositionInverseC(k);
    } else if k < 23 {
      PositionInverseD(k);
    } else if k < 28 {
      PositionInverseE(k);
    } else {
      PositionInverseF(k);
    }
  }

  lemma PositionInverseA(k: nat)
    requires 0 <= k < 6
    ensures Position(Districts[k]) == k
  {
    assert k == 0 || k == 1 || k == 2 || k == 3 || k == 4 || k == 5;
  }

  lemma PositionInverseB(k: nat)
    requires 6 <= k < 12
    ensures Position(Districts[k]) == k
  {
    assert k == 6 || k == 7 || k == 8 || k == 9 || k == 10 || k == 11;
  }

  lemma PositionInverseC(k: nat)
    requires 12 <= k < 18
    ensures Position(Districts[k]) == k
  {
    assert k == 12 || k == 13 || k == 14 || k == 15 || k == 16 || k == 17;
  }

  lemma PositionInverseD(k: nat)
    requires 18 <= k < 23
    ensures Position(Districts[k]) == k
  {
    assert k == 18 || k == 19 || k == 20 || k == 21 || k == 22;
  }

  lemma PositionInverseE(k: nat)
    requires 23 <= k < 28
    ensures Position(Districts[k]) == k
  {
    assert k == 23 || k == 24 || k == 25 || k == 26 || k == 27;
  }

  lemma PositionInverseF(k: nat)
    requires 28 <= k < 33
    ensures Position(Districts[k]) == k
  {
    assert k == 28 || k == 29 || k == 30 || k == 31 || k == 32;
  }

  /** GUJARAT_DISTRICTS' keys in insertion order (the same in all three files). */
  const GujaratDistricts: seq<string> := seq(|Districts|, i requires 0 <= i < |Districts| => Name(Districts[i]))

  /** Every district's name is a key, so the coordinate lookup never fails. */
  lemma NameIsKey(d: District)
    ensures Name(d) in GujaratDistricts
  {
    var k := Position(d);
    assert GujaratDistricts[k] == Name(Districts[k]);
  }

  /** The district whose GUJARAT_DISTRICTS key is `s`, if any, looked up
      by initial letter. */
  function FromName(s: string): (d: Option<District>)
  {
    if s == [] then None
    else
      match s[0]
      case 'A' =>
        (match s
        case "Ahmedabad" => Some(Ahmedabad)
        case "Amreli" => Some(Amreli)
        case "Anand" => Some(Anand)
        case "Aravalli" => Some(Aravalli)
        case _ => None)
      case 'B' =>
        (match s
        case "Banaskantha" => Some(Banaskantha)
        case "Bharuch" => Some(Bharuch)
        case "Bhavnagar" => Some(Bhavnagar)
        case "Botad" => Some(Botad)
        case _ => None)
      case 'C' =>
        (match s
        case "Chhota Udaipur" => Some(ChhotaUdaipur)
        case _ => None)
      case 'D' =>
        (match s
        case "Dahod" => Some(Dahod)
        case "Dang" => Some(Dang)
        case "Devbhoomi Dwarka" => Some(DevbhoomiDwarka)
        case _ => None)
      case 'G' =>
        (match s
        case "Gandhinagar" => Some(Gandhinagar)
        case "Gir Somnath" => Some(GirSomnath)
        case _ => None)
      case 'J' =>
        (match s
        case "Jamnagar" => Some(Jamnagar)
        case "Junagadh" => Some(Junagadh)
        case _ => None)
      case 'K' =>
        (match s
        case "Kheda" => Some(Kheda)
        case "Kutch" => Some(Kutch)
        case _ => None)
      case 'M' =>
        (match s
        case "Mahisagar" => Some(Mahisagar)
        case "Mehsana" => Some(Mehsana)
        case "Morbi" => Some(Morbi)
        case _ => None)
      case 'N' =>
        (match s
        case "Narmada" => Some(Narmada)
        case "Navsari" => Some(Navsari)
        case _ => None)
      case 'P' =>
        (match s
        case "Panchmahal" => Some(Panchmahal)
        case "Patan" => Some(Patan)
        case "Porbandar" => Some(Porbandar)
        case _ => None)
      case 'R' =>
        (match s
        case "Rajkot" => Some(Rajkot)
        case _ => None)
      case 'S' =>
        (match s
        case "Sabarkantha" => Some(Sabarkantha)
        case "Surat" => Some(Surat)
        case "Surendranagar" => Some(Surendranagar)
        case _ => None)
      case 'T' =>
        (match s
        case "Tapi" => Some(Tapi)
        case _ => None)
      case 'V' =>
        (match s
        case "Vadodara" => Some(Vadodara)
        case "Valsad" => Some(Valsad)
        case _ => None)
      case _ => None
  }

  /** Looking a district's name up gives the district back. */
  lemma FromNameInverse(d: District)
    ensures FromName(Name(d)) == Some(d)
  {
    if Position(d) < 10 {
      FromNameInverseA(d);
    } else if Position(d) < 17 {
      FromNameInverseB(d);
    } else if Position(d) < 23 {
      FromNameInverseC(d);
    } else if Position(d) < 27 {
      FromNameInverseD(d);
    } else if Position(d) < 30 {
      FromNameInverseE(d);
    } else {
      FromNameInverseF(d);
    }
  }

  lemma FromNameInverseA(d: District)
    requires 0 <= Position(d) < 10
    ensures FromName(Name(d)) == Some(d)
  {
    match d
    case Ahmedabad =>
    case Amreli =>
    case Anand =>
    case Aravalli =>
    case Banaskantha =>
    case Bharuch =>
    case Bhavnagar =>
    case Botad =>
    case ChhotaUdaipur =>
    case Dahod =>
  }

  lemma FromNameInverseB(d: District)
    requires 10 <= Position(d) < 17
    ensures FromName(Name(d)) == Some(d)
  {
    match d
    case Dang =>
    case DevbhoomiDwarka =>
    case Gandhinagar =>
    case GirSomnath =>
    case Jamnagar =>
    case Junagadh =>
    case Kheda =>
  }

  lemma FromNameInverseC(d: District)
    requires 17 <= Position(d) < 23
    ensures FromName(Name(d)) == Some(d)
  {
    match d
    case Kutch =>
    case Mahisagar =>
    case Mehsana =>
    case Morbi =>
    case Narmada =>
    case Navsari =>
  }

  lemma FromNameInverseD(d: District)
    requires 23 <= Position(d) < 27
    ensures FromName(Name(d)) == Some(d)
  {
    match d
    case Panchmahal =>
    case Patan =>
    case Porbandar =>
    case Rajkot =>
  }

  lemma FromNameInverseE(d: District)
    requires 27 <= Position(d) < 30
    ensures FromName(Name(d)) == Some(d)
  {
    match d
    case Sabarkantha =>
    case Surat =>
    case Surendranagar =>
  }

  lemma FromNameInverseF(d: District)
    requires 30 <= Position(d) < 33
    ensures FromName(Name(d)) == Some(d)
  {
    match d
    case Tapi =>
    case Vadodara =>
    case Valsad =>
  }

  /** Different districts have different names. */
  lemma NameInjective(d: District, e: District)
    requires Name(d) == Name(e)
    ensures d == e
  {
    FromNameInverse(d);
    FromNameInverse(e);
  }

  /** The district names are pairwise different, so GUJARAT_DISTRICTS has 33 entries. */
  lemma DistrictsDistinct()
    ensures |GujaratDistricts| == 33
    ensures forall i, j :: 0 <= i < j < |GujaratDistricts| ==> GujaratDistricts[i] != GujaratDistricts[j]
  {
    forall i, j | 0 <= i < j < |GujaratDistricts|
      ensures GujaratDistricts[i] != GujaratDistricts[j]
    {
      if GujaratDistricts[i] == GujaratDistricts[j] {
        NameInjective(Districts[i], Districts[j]);
        PositionInverse(i);
        PositionInverse(j);
      }
    }
  }

  /** `district.lower() in text`: the district's lower-case name occurs in the text. */
  function NameIn(text: string): District -> bool
  {
    (d: District) => Contains(text, Lower(Name(d)))
  }

  /** The six districts every language's popular list names, in English. */
  const PopularEnglish: seq<District> := [Ahmedabad, Surat, Vadodara, Rajkot, Gandhinagar, Jamnagar]

  function Names(ds: seq<District>): (names: seq<string>)
    ensures |names| == |ds|
    ensures forall k :: 0 <= k < |ds| ==> names[k] == Name(ds[k])
  {
    seq(|ds|, k requires 0 <= k < |ds| => Name(ds[k]))
  }

  /** `data.get(key, default)` on a request's form or JSON fields. */
  function Get(data: map<string, string>, key: string, default: string): (v: string)
    ensures key in data ==> v == data[key]
    ensures key !in data ==> v == default
  {
    if key in data then data[key] else default
  }

  /** The language code after lower-casing and removing '-' and '_'. */
  function CleanLanguage(lang: string): (r: string)
    ensures '-' !in r && '_' !in r
    ensures HasNoUpper(r)
    ensures multiset(r) == multiset(Lower(lang))['-' := 0]['_' := 0]
  {
    var r := RemoveChar(RemoveChar(Lower(lang), '-'), '_');
    assert forall k :: 0 <= k < |r| ==> r[k] in RemoveChar(Lower(lang), '-') by {
      RemoveCharSubset(RemoveChar(Lower(lang), '-'), '_');
    }
    RemoveCharSubset(Lower(lang), '-');
    LowerChars(lang);
    r
  }

  /** Cleaning works character by character, so the kept characters stay in
      their order. */
  lemma CleanLanguageConcat(a: string, b: string)
    ensures CleanLanguage(a + b) == CleanLanguage(a) + CleanLanguage(b)
  {
    LowerConcat(a, b);
    RemoveCharConcat(Lower(a), Lower(b), '-');
    RemoveCharConcat(RemoveChar(Lower(a), '-'), RemoveChar(Lower(b), '-'), '_');
  }

  /** A code that is already lower case and has no '-' or '_' is kept as is. */
  lemma CleanLanguageKeeps(lang: string)
    requires HasNoUpper(lang) && '-' !in lang && '_' !in lang
    ensures CleanLanguage(lang) == lang
  {
    LowerOfLowerCase(lang);
    RemoveCharAbsent(lang, '-');
    RemoveCharAbsent(lang, '_');
  }

  lemma RemoveCharSubset(s: string, c: char)
    ensures forall k :: 0 <= k < |RemoveChar(s, c)| ==> RemoveChar(s, c)[k] in s
  {
    if s != [] {
      RemoveCharSubset(s[1..], c);
      var r := RemoveChar(s, c);
      var t := RemoveChar(s[1..], c);
      assert forall x :: x in t ==> x in s[1..];
      assert forall x :: x in s[1..] ==> x in s;
    }
  }

  /** normalize_language_code: "gu" when the cleaned code mentions gu or
      gujarati, else "hi" when it mentions hi or hindi, else "en". */
  function NormalizeLanguageCode(lang: string): (code: string)
    ensures code == "gu" || code == "hi" || code == "en"
  {
    var l := CleanLanguage(lang);
    if Contains(l, "gu") || Contains(l, "gujarati") then "gu"
    else if Contains(l, "hi") || Contains(l, "hindi") then "hi"
    else "en"
  }

  /** The full names are redundant: "gujarati" contains "gu" and "hindi"
      contains "hi", so only the two-letter tests decide, Gujarati first. */
  lemma NormalizeLanguageCodeIff(lang: string)
    ensures NormalizeLanguageCode(lang) == "gu" <==> Contains(CleanLanguage(lang), "gu")
    ensures NormalizeLanguageCode(lang) == "hi" <==>
      !Contains(CleanLanguage(lang), "gu") && Contains(CleanLanguage(lang), "hi")
  {
    var l := CleanLanguage(lang);
    if Contains(l, "gujarati") {
      ContainsInConcat([], "gu", "jarati");
      ContainsTransitive(l, "gujarati", "gu");
    }
    if Contains(l, "hindi") {
      ContainsInConcat([], "hi", "ndi");
      ContainsTransitive(l, "hindi", "hi");
    }
  }

  /** Normalising a normalised code changes nothing. */
  lemma NormalizeLanguageCodeIdempotent(lang: string)
    ensures NormalizeLanguageCode(NormalizeLanguageCode(lang)) == NormalizeLanguageCode(lang)
  {
    NormalizeLanguageCodeFixes(NormalizeLanguageCode(lang));
  }

  /** Each of the three codes normalises to itself. */
  lemma NormalizeLanguageCodeFixes(code: string)
    requires code == "gu" || code == "hi" || code == "en"
    ensures NormalizeLanguageCode(code) == code
  {
    if code == "gu" {
      CleanLanguageKeeps("gu");
      ContainsSelf("gu");
    } else if code == "hi" {
      CleanLanguageKeeps("hi");
      NormalizeLanguageCodeIff("hi");
      ContainsSelf("hi");
      NotContainsOther("hi", "gu");
    } else {
      CleanLanguageKeeps("en");
      NormalizeLanguageCodeIff("en");
      NotContainsOther("en", "gu");
      NotContainsOther("en", "hi");
    }
  }

  /** A two-letter code contains another two-letter code only when they are equal. */
  lemma NotContainsOther(code: string, other: string)
    requires |code| == |other| && code != other
    ensures !Contains(code, other)
  {
    if Contains(code, other) {
      SameLengthOccurrence(code, other);
    }
  }

  /** A part as long as the text occurs in it only as the whole text. */
  lemma SameLengthOccurrence(text: string, part: string)
    requires |text| == |part| && Contains(text, part)
    ensures text == part
  {
    ContainsIff(text, part);
    var i :| OccursAt(text, part, i);
    assert text[0..|part|] == text;
  }

  /** ALLOWED_EXTENSIONS */
  const AllowedExtensions: set<string> := {"png", "jpg", "jpeg"}

  /** filename.rsplit('.', 1)[1] for a name that contains a dot: the text
      after the last dot (the whole name when there is no dot). */
  function AfterLastDot(filename: string): (ext: string)
    ensures |ext| <= |filename|
    ensures ext == filename[|filename| - |ext|..]
    ensures '.' !in ext
    ensures |ext| < |filename| ==> filename[|filename| - |ext| - 1] == '.'
  {
    if filename == [] then []
    else if filename[|filename| - 1] == '.' then []
    else AfterLastDot(filename[..|filename| - 1]) + [filename[|filename| - 1]]
  }

  /** allowed_file */
  function AllowedFile(filename: string): bool
  {
    '.' in filename && Lower(AfterLastDot(filename)) in AllowedExtensions
  }

  /** A file name is accepted exactly when it has a dot and the text after
      its last dot is png, jpg or jpeg in any letter case. */
  lemma AllowedFileIff(filename: string)
    ensures AllowedFile(filename) <==>
      exists i :: 0 <= i < |filename| && filename[i] == '.' && '.' !in filename[i + 1..]
        && Lower(filename[i + 1..]) in AllowedExtensions
  {
    var ext := AfterLastDot(filename);
    if '.' in filename {
      var i := |filename| - |ext| - 1;
      assert filename[i] == '.';
      assert filename[i + 1..] == ext;
    }
  }
}
