/** format_commodity_response: the text reply listing commodity price records.
    api.py has one layout; test.py and app.py share the other, character for
    character. */
module Report {
  import opened Strings
  import opened Common

  /** One data.gov.in record: its fields by name. */
  type Record = map<string, string>

  /** `record.get(key, 'N/A')` */
  function Field(record: Record, key: string): string
  {
    Get(record, key, "N/A")
  }

  /** The api.py layout (a "Recent" title, an arrival-date line and a closing
      note) and the layout test.py and app.py share (a date in the title). */
  datatype Layout = ApiLayout | TestAppLayout

  const NoData := "No commodity price data found."

  /** How many records are listed at most. */
  const Shown := 5

  /** api.py's rupee sign is stored mis-encoded; it is kept as it is written. */
  function Rupee(layout: Layout): string
  {
    match layout
    case ApiLayout => "\U{00E2}\U{201A}\U{00B9}"
    case TestAppLayout => "₹"
  }

  /** The text closes with a blank line: its last two characters are line feeds. */
  predicate EndsBlank(s: string)
  {
    |s| >= 2 && s[|s| - 2] == '\n' && s[|s| - 1] == '\n'
  }

  lemma EndsBlankConcat(a: string, b: string)
    requires EndsBlank(b)
    ensures EndsBlank(a + b)
  {
    assert (a + b)[|a + b| - 2] == b[|b| - 2];
    assert (a + b)[|a + b| - 1] == b[|b| - 1];
  }

  /** The title line; a blank district or date counts as absent, as Python's
      truthiness test does. api.py never shows the date. */
  function Header(layout: Layout, district: string, date: string): string
  {
    var title := match layout
      case ApiLayout => "Recent commodity prices"
      case TestAppLayout => "Commodity prices";
    var place := if district != "" then " in " + district + ", Gujarat" else "";
    var when := if layout == TestAppLayout && date != "" then " for " + date else "";
    title + place + when + ":\n\n"
  }

  /** A title never starts like the no-data message. */
  lemma HeaderStart(layout: Layout, district: string, date: string)
    ensures |Header(layout, district, date)| > 0 && Header(layout, district, date)[0] != NoData[0]
  {
  }

  /** The lines of one record after its number. */
  function Lines(layout: Layout, record: Record): (s: string)
    ensures EndsBlank(s)
  {
    var head := Field(record, "Commodity") + " (" + Field(record, "Variety") + ")\n"
      + "   Market: " + Field(record, "Market") + "\n"
      + (if layout == ApiLayout then "   Date: " + Field(record, "Arrival_Date") + "\n" else "")
      + "   Price Range: " + Rupee(layout) + Field(record, "Min_Price")
      + " - " + Rupee(layout) + Field(record, "Max_Price") + "\n"
      + "   Modal Price: " + Rupee(layout) + Field(record, "Modal_Price");
    EndsBlankConcat(head, "\n\n");
    head + "\n\n"
  }

  /** The block for the record listed as number n. */
  function Entry(layout: Layout, n: nat, record: Record): (e: string)
    ensures NatToString(n) + ". " <= e
    ensures EndsBlank(e)
  {
    var first := NatToString(n) + ". ";
    var lines := Lines(layout, record);
    EndsBlankConcat(first, lines);
    assert (first + lines)[..|first|] == first;
    first + lines
  }

  /** The block of every record, as a function of its number and the record. */
  function EntryOf(layout: Layout): (nat, Record) -> string
  {
    (n: nat, record: Record) => Entry(layout, n, record)
  }

  /** The blocks of the given records, numbered from 1 in list order; built
      from the back, as the loop appends them. */
  function Listing(block: (nat, Record) -> string, records: seq<Record>): string
  {
    if records == [] then ""
    else Listing(block, records[..|records| - 1]) + block(|records|, records[|records| - 1])
  }

  /** The same blocks, numbered from `start` on, built from the front. */
  function ListingFrom(block: (nat, Record) -> string, records: seq<Record>, start: nat): string
  {
    if records == [] then ""
    else block(start, records[0]) + ListingFrom(block, records[1..], start + 1)
  }

  /** Appending at the back of the front-built list numbers the new block
      after all the others. */
  lemma {:induction false} ListingFromSnoc(block: (nat, Record) -> string, records: seq<Record>, start: nat, r: Record)
    ensures ListingFrom(block, records + [r], start)
         == ListingFrom(block, records, start) + block(start + |records|, r)
  {
    if records != [] {
      assert (records + [r])[1..] == records[1..] + [r];
      ListingFromSnoc(block, records[1..], start + 1, r);
    } else {
      assert records + [r] == [r];
    }
  }

  /** One more record adds its block at the back. */
  lemma ListingSnoc(block: (nat, Record) -> string, records: seq<Record>, i: nat)
    requires i < |records|
    ensures Listing(block, records[..i + 1]) == Listing(block, records[..i]) + block(i + 1, records[i])
  {
    assert records[..i + 1][..i] == records[..i];
  }

  /** The records are numbered 1, 2, ... in list order: the k-th block is
      block(k + 1, records[k]). */
  lemma {:induction false} ListingNumbered(block: (nat, Record) -> string, records: seq<Record>)
    ensures Listing(block, records) == ListingFrom(block, records, 1)
  {
    if records != [] {
      var init := records[..|records| - 1];
      ListingNumbered(block, init);
      ListingFromSnoc(block, init, 1, records[|records| - 1]);
      assert init + [records[|records| - 1]] == records;
    }
  }

  /** A non-empty listing ends with the blank line closing its last block. */
  lemma ListingEnds(layout: Layout, records: seq<Record>)
    requires records != []
    ensures EndsBlank(Listing(EntryOf(layout), records))
  {
    var init := Listing(EntryOf(layout), records[..|records| - 1]);
    var e := Entry(layout, |records|, records[|records| - 1]);
    EndsBlankConcat(init, e);
  }

  /** "... and N more items." for the records beyond the first five. */
  function MoreItems(count: nat): (m: string)
    ensures count > Shown ==> m == "... and " + NatToString(count - Shown) + " more items.\n"
    ensures count <= Shown ==> m == ""
  {
    if count > Shown then "... and " + NatToString(count - Shown) + " more items.\n" else ""
  }

  /** api.py closes every non-empty reply with a note about the data's age. */
  function Note(layout: Layout): string
  {
    match layout
    case ApiLayout => "\nNote: Prices shown are from the most recent available data."
    case TestAppLayout => ""
  }

  function Min(a: nat, b: nat): nat
  {
    if a < b then a else b
  }

  /** The reply: a fixed message for no records, otherwise the title, the
      first five records, the count of the rest, and api.py's note. */
  function Formatted(layout: Layout, records: seq<Record>, district: string, date: string): string
  {
    if records == [] then NoData
    else
      Header(layout, district, date) + Listing(EntryOf(layout), records[..Min(|records|, Shown)])
        + MoreItems(|records|) + Note(layout)
  }

  /** The fixed message is given exactly when there are no records. */
  lemma NoDataIff(layout: Layout, records: seq<Record>, district: string, date: string)
    ensures records == [] <==> Formatted(layout, records, district, date) == NoData
  {
    if records != [] {
      var h := Header(layout, district, date);
      var hl := h + Listing(EntryOf(layout), records[..Min(|records|, Shown)]);
      var hlm := hl + MoreItems(|records|);
      HeaderStart(layout, district, date);
      assert Formatted(layout, records, district, date) == hlm + Note(layout);
      assert (hlm + Note(layout))[0] == hlm[0] == hl[0] == h[0];
    }
  }

  predicate EndsWith(s: string, suffix: string)
  {
    |suffix| <= |s| && s[|s| - |suffix|..] == suffix
  }

  lemma EndsWithAppend(a: string, b: string, c: string)
    ensures EndsWith(a + b + c, b + c)
  {
    assert (a + b + c)[|a|..] == b + c;
  }

  lemma EndsWithTransitive(s: string, t: string, u: string)
    requires EndsWith(s, t) && EndsWith(t, u)
    ensures EndsWith(s, u)
  {
    assert s[|s| - |u|..] == s[|s| - |t|..][|t| - |u|..];
  }

  /** Text closing with a blank line, followed by the note, does not end
      with the more-items line and the note. */
  lemma BlankEndIsNotMore(body: string, note: string)
    requires EndsBlank(body)
    ensures !EndsWith(body + note, " more items.\n" + note)
  {
    var s := body + note;
    var tail := " more items.\n" + note;
    assert s[|body| - 2] == '\n';
    assert tail[|tail| - |note| - 2] == '.';
    if |tail| <= |s| {
      assert s[|s| - |tail|..][|tail| - |note| - 2] == s[|body| - 2];
    }
  }

  lemma NoDataIsNotMore(layout: Layout)
    ensures !EndsWith(NoData, " more items.\n" + Note(layout))
  {
    var tail := " more items.\n" + Note(layout);
    if |tail| <= |NoData| {
      assert layout == TestAppLayout;
      assert NoData[|NoData| - |tail|..][|tail| - 1] == NoData[|NoData| - 1] == '.';
    }
  }

  /** A non-empty reply is the title and listing, the more-items line, and
      the note. */
  lemma FormattedParts(layout: Layout, records: seq<Record>, district: string, date: string)
    returns (hl: string)
    requires records != []
    ensures Formatted(layout, records, district, date) == hl + MoreItems(|records|) + Note(layout)
    ensures EndsBlank(hl)
  {
    var listed := records[..Min(|records|, Shown)];
    var l := Listing(EntryOf(layout), listed);
    hl := Header(layout, district, date) + l;
    ListingEnds(layout, listed);
    EndsBlankConcat(Header(layout, district, date), l);
  }

  /** Five records or fewer: no more-items line. */
  lemma FewRecordsNoMore(layout: Layout, records: seq<Record>, district: string, date: string)
    requires 0 < |records| <= Shown
    ensures !EndsWith(Formatted(layout, records, district, date), " more items.\n" + Note(layout))
  {
    var hl := FormattedParts(layout, records, district, date);
    assert hl + MoreItems(|records|) == hl;
    BlankEndIsNotMore(hl, Note(layout));
  }

  /** More than five records: the more-items line, then the note. */
  lemma ManyRecordsMore(layout: Layout, records: seq<Record>, district: string, date: string)
    requires |records| > Shown
    ensures EndsWith(Formatted(layout, records, district, date), MoreItems(|records|) + Note(layout))
    ensures EndsWith(Formatted(layout, records, district, date), " more items.\n" + Note(layout))
  {
    var hl := FormattedParts(layout, records, district, date);
    var note := Note(layout);
    var x := "... and " + NatToString(|records| - Shown);
    var y := " more items.\n";
    assert MoreItems(|records|) == x + y;
    EndsWithAppend(hl, x + y, note);
    EndsWithAppend(x, y, note);
    EndsWithTransitive(Formatted(layout, records, district, date), x + y + note, y + note);
  }

  /** The reply ends with "... and N more items." (before api.py's note)
      exactly when there are more than five records, where N is the number of
      records not listed. */
  lemma MoreItemsIff(layout: Layout, records: seq<Record>, district: string, date: string)
    ensures |records| > Shown <==> EndsWith(Formatted(layout, records, district, date), " more items.\n" + Note(layout))
    ensures |records| > Shown ==>
      EndsWith(Formatted(layout, records, district, date), MoreItems(|records|) + Note(layout))
  {
    if records == [] {
      NoDataIsNotMore(layout);
    } else if |records| <= Shown {
      FewRecordsNoMore(layout, records, district, date);
    } else {
      ManyRecordsMore(layout, records, district, date);
    }
  }

  /** Only the first five records and the number of records matter: lists
      that agree on those get the same reply. */
  lemma OnlyFirstFiveShown(layout: Layout, a: seq<Record>, b: seq<Record>, district: string, date: string)
    requires |a| == |b|
    requires a[..Min(|a|, Shown)] == b[..Min(|b|, Shown)]
    ensures Formatted(layout, a, district, date) == Formatted(layout, b, district, date)
  {
  }

  /** The loop of format_commodity_response: `response +=` the block of each
      of the first `count` records. */
  method AppendListing(block: (nat, Record) -> string, records: seq<Record>, count: nat, prefix: string)
    returns (response: string)
    requires count <= |records|
    ensures response == prefix + Listing(block, records[..count])
  {
    response := prefix;
    var i := 0;
    while i < count
      invariant 0 <= i <= count
      invariant response == prefix + Listing(block, records[..i])
    {
      ListingSnoc(block, records, i);
      response := response + block(i + 1, records[i]);
      i := i + 1;
    }
  }

  /** format_commodity_response: the title, the blocks of records[:5], the
      count of the rest and, in api.py, the note. */
  method FormatCommodityResponse(layout: Layout, records: seq<Record>, district: string, date: string)
    returns (response: string)
    ensures response == Formatted(layout, records, district, date)
  {
    if records == [] {
      return NoData;
    }
    response := AppendListing(EntryOf(layout), records, Min(|records|, Shown), Header(layout, district, date));
    if |records| > Shown {
      response := response + MoreItems(|records|);
    }
    response := response + Note(layout);
  }
}
