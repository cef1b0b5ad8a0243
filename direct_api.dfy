/** Docs-sheet-mcp/Direct-Api.py: turning Google Drive, Docs and Sheets API
    responses into the text the agent's tools return. Each API call is a
    parameter `fetched`: the parsed response, or the `HttpError` it raised. */
module DirectApi {
  import opened PyText

  // =====================================================================
  // Google Docs: read_document and read_google_doc
  // =====================================================================

  /** An element of a paragraph; only text runs carry text. */
  datatype ParagraphElement = TextRun(content: string) | OtherRun

  /** A structural element of the document body. */
  datatype StructuralElement = Paragraph(elements: seq<ParagraphElement>) | OtherElement

  /** The fields of a `documents().get` response that the script reads; an
      absent `body` or `content` is the empty body. */
  datatype Document = Document(title: Option<string>, body: seq<StructuralElement>, revisionId: Option<string>)

  /** The `textRun.content` strings of a paragraph, in order. */
  function RunTexts(runs: seq<ParagraphElement>): seq<string>
  {
    if runs == [] then []
    else RunTexts(runs[..|runs| - 1]) +
         match runs[|runs| - 1]
         case TextRun(c) => [c]
         case OtherRun => []
  }

  /** The run texts of two stretches of a paragraph are those of each, in order. */
  lemma {:induction false} RunTextsAppend(a: seq<ParagraphElement>, b: seq<ParagraphElement>)
    ensures RunTexts(a + b) == RunTexts(a) + RunTexts(b)
    decreases |b|
  {
    if b == [] {
      assert a + b == a;
    } else {
      var n := |b| - 1;
      assert (a + b)[..|a + b| - 1] == a + b[..n];
      assert (a + b)[|a + b| - 1] == b[n];
      RunTextsAppend(a, b[..n]);
    }
  }

  /** Runs without a `textRun` contribute nothing, wherever they are. */
  lemma OtherRunIgnored(a: seq<ParagraphElement>, b: seq<ParagraphElement>)
    ensures RunTexts(a + [OtherRun] + b) == RunTexts(a + b)
  {
    RunTextsAppend(a + [OtherRun], b);
    RunTextsAppend(a, b);
    assert (a + [OtherRun])[..|a|] == a;
  }

  /** The `textRun.content` strings of the whole body, in document order;
      elements other than paragraphs contribute nothing. */
  function BodyTexts(body: seq<StructuralElement>): seq<string>
  {
    if body == [] then []
    else BodyTexts(body[..|body| - 1]) +
         match body[|body| - 1]
         case Paragraph(runs) => RunTexts(runs)
         case OtherElement => []
  }

  /** Every text run is collected, none is invented: the collected strings
      are exactly the text-run contents of the paragraphs. */
  lemma {:induction false} BodyTextsAppend(a: seq<StructuralElement>, b: seq<StructuralElement>)
    ensures BodyTexts(a + b) == BodyTexts(a) + BodyTexts(b)
    decreases |b|
  {
    if b == [] {
      assert a + b == a;
    } else {
      var n := |b| - 1;
      assert (a + b)[..|a + b| - 1] == a + b[..n];
      assert (a + b)[|a + b| - 1] == b[n];
      BodyTextsAppend(a, b[..n]);
    }
  }

  /** Elements other than paragraphs contribute nothing, wherever they are. */
  lemma OtherElementIgnored(a: seq<StructuralElement>, b: seq<StructuralElement>)
    ensures BodyTexts(a + [OtherElement] + b) == BodyTexts(a + b)
  {
    BodyTextsAppend(a + [OtherElement], b);
    BodyTextsAppend(a, b);
    assert (a + [OtherElement])[..|a|] == a;
  }

  /** A document made of paragraphs holding only text runs yields their
      contents in order. */
  lemma {:induction false} PlainParagraphsText(texts: seq<string>)
    ensures BodyTexts(seq(|texts|, k requires 0 <= k < |texts| => Paragraph([TextRun(texts[k])]))) == texts
  {
    var body := seq(|texts|, k requires 0 <= k < |texts| => Paragraph([TextRun(texts[k])]));
    if texts != [] {
      var n := |texts| - 1;
      assert body[..n] == seq(n, k requires 0 <= k < n => Paragraph([TextRun(texts[..n][k])]));
      PlainParagraphsText(texts[..n]);
      assert RunTexts([TextRun(texts[n])]) == RunTexts([]) + [texts[n]];
      assert texts == texts[..n] + [texts[n]];
    }
  }

  /** The dictionary `read_document` returns. */
  datatype DocReply =
    | DocRecord(title: Option<string>, documentId: string, content: string, revisionId: Option<string>)
    | DocError(error: string)

  /** `read_document`: nested loops collect the text runs in a list, which
      is then joined. An `HttpError` becomes the error dictionary. */
  method ReadDocument(documentId: string, fetched: Outcome<Document>) returns (reply: DocReply)
    ensures fetched.Raised? ==> reply == DocError("Failed to read document: " + fetched.message)
    ensures fetched.Returned? ==>
              reply == DocRecord(fetched.value.title, documentId,
                                 Concat(BodyTexts(fetched.value.body)), fetched.value.revisionId)
  {
    if fetched.Raised? {
      return DocError("Failed to read document: " + fetched.message);
    }
    var doc := fetched.value;
    var content: seq<string> := [];
    var i := 0;
    while i < |doc.body|
      invariant 0 <= i <= |doc.body|
      invariant content == BodyTexts(doc.body[..i])
    {
      assert doc.body[..i + 1][..i] == doc.body[..i];
      match doc.body[i] {
        case Paragraph(runs) =>
          var j := 0;
          while j < |runs|
            invariant 0 <= j <= |runs|
            invariant content == BodyTexts(doc.body[..i]) + RunTexts(runs[..j])
          {
            assert runs[..j + 1][..j] == runs[..j];
            match runs[j] {
              case TextRun(c) => content := content + [c];
              case OtherRun =>
            }
            j := j + 1;
          }
          assert runs[..j] == runs;
        case OtherElement =>
      }
      i := i + 1;
    }
    assert doc.body[..i] == doc.body;
    return DocRecord(doc.title, documentId, Concat(content), doc.revisionId);
  }

  const DocLimit := 3000

  /** The lines before the document content. */
  function DocHeader(title: Option<string>, documentId: string): string
  {
    "# " + OptionText(title) + "\n\n" + "Document ID: `" + documentId + "`\n\n" + "## Content:\n\n"
  }

  function TruncationNotice(length: nat): string
  {
    "\n\n... (truncated, total length: " + NatText(length) + " characters)"
  }

  function Min(a: int, b: int): int { if a <= b then a else b }

  /** The text of `read_google_doc` for a reply of `read_document`. */
  function FormatDoc(reply: DocReply): (r: string)
    ensures reply.DocError? ==> r == "Error: " + reply.error
    // the header, then the first min(3000, len) characters of the content ...
    ensures reply.DocRecord? ==>
              var h := DocHeader(reply.title, reply.documentId);
              var n := Min(DocLimit, |reply.content|);
              |r| >= |h| + n && r[..|h|] == h && r[|h|..|h| + n] == reply.content[..n]
    // ... followed by nothing for a short document, by the notice with the
    // full length for a long one
    ensures reply.DocRecord? ==>
              var h := DocHeader(reply.title, reply.documentId);
              var n := Min(DocLimit, |reply.content|);
              r[|h| + n..] == if |reply.content| > DocLimit then TruncationNotice(|reply.content|) else ""
  {
    match reply
    case DocError(e) => "Error: " + e
    case DocRecord(title, id, content, _) =>
      var h := DocHeader(title, id);
      var shown := content[..Min(DocLimit, |content|)];
      var r := h + shown + (if |content| > DocLimit then TruncationNotice(|content|) else "");
      assert r[..|h|] == h && r[|h|..|h| + |shown|] == shown;
      r
  }

  /** Content within the limit is shown whole, with no notice; the notice
      appears exactly when the content is longer than 3000 characters. */
  lemma ShortDocumentShownWhole(title: Option<string>, documentId: string, content: string, revisionId: Option<string>)
    requires |content| <= DocLimit
    ensures FormatDoc(DocRecord(title, documentId, content, revisionId)) == DocHeader(title, documentId) + content
  {
    var r := FormatDoc(DocRecord(title, documentId, content, revisionId));
    var h := DocHeader(title, documentId);
    assert r == r[..|h|] + r[|h|..|h| + |content|] + r[|h| + |content|..];
  }

  /** `read_google_doc`. */
  method ReadGoogleDoc(documentId: string, fetched: Outcome<Document>) returns (r: string)
    ensures fetched.Raised? ==> r == "Error: " + "Failed to read document: " + fetched.message
    ensures fetched.Returned? ==>
              r == FormatDoc(DocRecord(fetched.value.title, documentId,
                                       Concat(BodyTexts(fetched.value.body)), fetched.value.revisionId))
  {
    var doc := ReadDocument(documentId, fetched);
    if doc.DocError? {
      return "Error: " + doc.error;
    }
    r := "# " + OptionText(doc.title) + "\n\n";
    r := r + "Document ID: `" + doc.documentId + "`\n\n";
    r := r + "## Content:\n\n";
    r := r + doc.content[..Min(DocLimit, |doc.content|)];
    if |doc.content| > DocLimit {
      r := r + TruncationNotice(|doc.content|);
    }
  }

  // =====================================================================
  // Google Sheets: read_spreadsheet and read_google_sheet
  // =====================================================================

  /** The title and the `values` of a spreadsheet (cells as their `str`). */
  datatype Spreadsheet = Spreadsheet(title: Option<string>, values: seq<seq<string>>)

  /** The dictionary `read_spreadsheet` returns. */
  datatype SheetReply =
    | SheetRecord(title: Option<string>, spreadsheetId: string, data: seq<seq<string>>, range: string)
    | SheetError(error: string)

  /** `read_spreadsheet`. */
  function ReadSpreadsheet(spreadsheetId: string, rangeName: string, fetched: Outcome<Spreadsheet>): (r: SheetReply)
    ensures fetched.Raised? <==> r.SheetError?
    ensures fetched.Returned? ==> r.data == fetched.value.values && r.range == rangeName
  {
    match fetched
    case Raised(e) => SheetError("Failed to read spreadsheet: " + e)
    case Returned(sheet) => SheetRecord(sheet.title, spreadsheetId, sheet.values, rangeName)
  }

  /** `row + [''] * (width - len(row))`: short rows are padded with empty
      cells to the width; longer rows are not cut. */
  function Pad(row: seq<string>, width: nat): (r: seq<string>)
    ensures |r| == if |row| < width then width else |row|
    ensures r[..|row|] == row
    ensures forall k :: |row| <= k < |r| ==> r[k] == ""
  {
    if |row| < width then row + Repeat("", width - |row|) else row
  }

  /** `"| " + " | ".join(cells) + " |\n"`. */
  function RowLine(cells: seq<string>): string
  {
    "| " + Join(" | ", cells) + " |\n"
  }

  /** `"|" + "|".join(["---" for _ in header]) + "|\n"`. */
  function SeparatorLine(width: nat): string
  {
    "|" + Join("|", Repeat("---", width)) + "|\n"
  }

  /** One "---" followed by "|" per header cell. */
  lemma {:induction false} SeparatorCells(width: nat)
    ensures SeparatorLine(width) == "|" + Concat(Repeat("---|", width)) + (if width == 0 then "|\n" else "\n")
  {
    if width > 0 {
      JoinDashes(width);
    }
  }

  lemma {:induction false} JoinDashes(width: nat)
    requires width > 0
    ensures Join("|", Repeat("---", width)) + "|" == Concat(Repeat("---|", width))
  {
    var xs := Repeat("---", width);
    if width > 1 {
      assert xs[1..] == Repeat("---", width - 1);
      assert Repeat("---|", width)[1..] == Repeat("---|", width - 1);
      JoinDashes(width - 1);
    } else {
      assert Repeat("---|", 1)[1..] == [];
    }
  }

  /** The body rows shown: `data[1:50]`, that is rows 1 to 49 of the data,
      in order; at most 49 body rows. */
  function ShownRows(data: seq<seq<string>>): (rows: seq<seq<string>>)
    requires |data| > 0
    ensures |rows| == Min(|data| - 1, 49)
    ensures forall k :: 0 <= k < |rows| ==> rows[k] == data[k + 1]
  {
    data[1..Min(|data|, 50)]
  }

  /** The row lines of `rows`, each padded to `width`. */
  function RowLines(rows: seq<seq<string>>, width: nat): string
  {
    if rows == [] then "" else RowLines(rows[..|rows| - 1], width) + RowLine(Pad(rows[|rows| - 1], width))
  }

  /** One line per row, each row padded to `width`. */
  function PaddedRowLines(rows: seq<seq<string>>, width: nat): seq<string>
  {
    seq(|rows|, k requires 0 <= k < |rows| => RowLine(Pad(rows[k], width)))
  }

  /** The row lines are the padded rows' lines, joined in order. */
  lemma {:induction false} RowLinesAreLines(rows: seq<seq<string>>, width: nat)
    ensures RowLines(rows, width) == Concat(PaddedRowLines(rows, width))
  {
    if rows != [] {
      var n := |rows| - 1;
      RowLinesAreLines(rows[..n], width);
      var last := RowLine(Pad(rows[n], width));
      PaddedRowLinesSnoc(rows, width);
      ConcatAppend(PaddedRowLines(rows[..n], width), [last]);
      assert Concat([last]) == last;
    }
  }

  lemma PaddedRowLinesSnoc(rows: seq<seq<string>>, width: nat)
    requires rows != []
    ensures PaddedRowLines(rows, width) ==
              PaddedRowLines(rows[..|rows| - 1], width) + [RowLine(Pad(rows[|rows| - 1], width))]
  {
    var n := |rows| - 1;
    var lines, prefix := PaddedRowLines(rows, width), PaddedRowLines(rows[..n], width);
    assert forall k :: 0 <= k < n ==> rows[..n][k] == rows[k];
    assert lines == prefix + [lines[n]];
  }

  /** The notice appended after the table: present exactly when the data
      has more than 51 rows (a header and more than 50 body rows). */
  function ShowingNotice(data: seq<seq<string>>): (notice: string)
    ensures notice != "" <==> |data| > 51
  {
    if |data| > 51 then "\n... (showing 50 of " + NatText(|data| - 1) + " rows)" else ""
  }

  function SheetHeader(title: Option<string>, spreadsheetId: string, rangeName: string): string
  {
    "# " + OptionText(title) + "\n\n" + "Spreadsheet ID: `" + spreadsheetId + "`\n" + "Range: `" + rangeName + "`\n\n"
  }

  /** Reference definition of the text of `read_google_sheet`. */
  function FormatSheet(reply: SheetReply): (r: string)
    ensures reply.SheetError? ==> r == "Error: " + reply.error
    ensures reply.SheetRecord? && reply.data == [] ==>
              r == SheetHeader(reply.title, reply.spreadsheetId, reply.range) + "No data found in the specified range."
  {
    match reply
    case SheetError(e) => "Error: " + e
    case SheetRecord(title, id, data, rangeName) =>
      if data == [] then SheetHeader(title, id, rangeName) + "No data found in the specified range."
      else
        SheetHeader(title, id, rangeName) + "## Data:\n\n" + RowLine(data[0]) + SeparatorLine(|data[0]|) +
        RowLines(ShownRows(data), |data[0]|) + ShowingNotice(data)
  }

  /** A non-empty sheet is the header, the line of header cells, the
      separator, one line per shown row (padded to the header width) and the
      notice. */
  lemma {:induction false} SheetTable(reply: SheetReply)
    requires reply.SheetRecord? && reply.data != []
    ensures var d := reply.data;
            FormatSheet(reply) ==
              SheetHeader(reply.title, reply.spreadsheetId, reply.range) + "## Data:\n\n" +
              RowLine(d[0]) + SeparatorLine(|d[0]|) +
              Concat(PaddedRowLines(ShownRows(d), |d[0]|)) + ShowingNotice(d)
  {
    RowLinesAreLines(ShownRows(reply.data), |reply.data[0]|);
  }

  /** Past 51 rows the notice says 50 rows are shown while the table holds 49. */
  lemma NoticeCountsOneRowTooMany(data: seq<seq<string>>)
    requires |data| > 51
    ensures |ShownRows(data)| == 49
    ensures ShowingNotice(data) == "\n... (showing " + NatText(50) + " of " + NatText(|data| - 1) + " rows)"
  {
    assert NatText(50) == NatText(5) + [DigitChar(0)];
  }

  /** With exactly 51 rows (a header and 50 body rows) the last body row is
      left out and no notice says so. */
  lemma FiftyBodyRowsDropOneSilently(data: seq<seq<string>>)
    requires |data| == 51
    ensures ShownRows(data) == data[1..|data| - 1]
    ensures ShowingNotice(data) == ""
  {
  }

  /** The loop of `read_google_sheet` over the body rows. */
  method TableRows(rows: seq<seq<string>>, width: nat) returns (lines: string)
    ensures lines == RowLines(rows, width)
  {
    lines := "";
    var i := 0;
    while i < |rows|
      invariant 0 <= i <= |rows|
      invariant lines == RowLines(rows[..i], width)
    {
      RowLinesStep(rows, i, width);
      var padded := Pad(rows[i], width);
      lines := lines + RowLine(padded);
      i := i + 1;
    }
    assert rows[..i] == rows;
  }

  lemma RowLinesStep(rows: seq<seq<string>>, i: nat, width: nat)
    requires i < |rows|
    ensures RowLines(rows[..i + 1], width) == RowLines(rows[..i], width) + RowLine(Pad(rows[i], width))
  {
    assert rows[..i + 1][..i] == rows[..i];
  }

  /** `read_google_sheet`: the table is built line by line over `data[1:50]`. */
  method ReadGoogleSheet(spreadsheetId: string, rangeName: string, fetched: Outcome<Spreadsheet>)
    returns (r: string)
    ensures r == FormatSheet(ReadSpreadsheet(spreadsheetId, rangeName, fetched))
  {
    var sheet := ReadSpreadsheet(spreadsheetId, rangeName, fetched);
    if sheet.SheetError? {
      return "Error: " + sheet.error;
    }
    r := "# " + OptionText(sheet.title) + "\n\n";
    r := r + "Spreadsheet ID: `" + sheet.spreadsheetId + "`\n";
    r := r + "Range: `" + sheet.range + "`\n\n";
    var data := sheet.data;
    if data == [] {
      return r + "No data found in the specified range.";
    }
    r := r + "## Data:\n\n";
    r := r + RowLine(data[0]);
    r := r + SeparatorLine(|data[0]|);
    var lines := TableRows(ShownRows(data), |data[0]|);
    r := r + lines;
    if |data| > 51 {
      r := r + "\n... (showing 50 of " + NatText(|data| - 1) + " rows)";
    }
  }

  // =====================================================================
  // Google Drive: search_google_drive and list_recent_files
  // =====================================================================

  /** A file dictionary of a `files().list` response; a key that is absent
      is None. */
  datatype DriveFile = DriveFile(id: Option<string>, name: Option<string>, mimeType: Option<string>,
                                 modifiedTime: Option<string>, webViewLink: Option<string>)

  /** The `{"error": …}` dictionary returned in place of the file list when
      the list call raises `HttpError`; it has none of the file keys. */
  const ErrorEntry := DriveFile(None, None, None, None, None)

  /** `search_files` and `list_my_files`: the files, or the one error entry. */
  function FilesOrErrorEntry(fetched: Outcome<seq<DriveFile>>): (files: seq<DriveFile>)
    ensures fetched.Raised? ==> |files| == 1 && Incomplete(files[0])
    ensures fetched.Raised? ==> files[0].name.None? && files[0].mimeType.None?
  {
    match fetched
    case Returned(files) => files
    case Raised(_) => [ErrorEntry]
  }

  /** A tool's text, or the `KeyError` raised by `file[key]` on an absent key. */
  datatype Formatted = Text(text: string) | KeyError(key: string)

  function TextOf(f: Formatted): string
  {
    if f.Text? then f.text else ""
  }

  /** `mimeType.split('.')[-1]`. */
  function MimeLabel(mimeType: string): (r: string)
    ensures |r| <= |mimeType| && r == mimeType[|mimeType| - |r|..]
    ensures '.' !in r
    ensures |r| < |mimeType| ==> mimeType[|mimeType| - |r| - 1] == '.'
  {
    LastField(mimeType, '.')
  }

  /** `file.get('modifiedTime', 'N/A')`. */
  function ModifiedText(f: DriveFile): string
  {
    if f.modifiedTime.Some? then f.modifiedTime.value else "N/A"
  }

  /** A file lacking one of the keys both listings index directly. */
  predicate Incomplete(f: DriveFile)
  {
    f.name.None? || f.id.None? || f.mimeType.None?
  }

  /** The lines of one complete entry of the search listing. */
  function SearchEntryLines(number: nat, name: string, id: string, typeLabel: string, modified: string): seq<string>
  {
    [NatText(number) + ". **" + name + "**\n",
     "   - ID: `" + id + "`\n",
     "   - Type: " + typeLabel + "\n",
     "   - Modified: " + modified + "\n\n"]
  }

  /** One entry of the search listing, numbered `number`; `file['name']`,
      `file['id']` and `file['mimeType']` are read in that order. */
  function SearchEntry(number: nat, f: DriveFile): (r: Formatted)
    ensures r.KeyError? <==> Incomplete(f)
    ensures r.KeyError? ==> r.key == if f.name.None? then "name" else if f.id.None? then "id" else "mimeType"
  {
    if f.name.None? then KeyError("name")
    else if f.id.None? then KeyError("id")
    else if f.mimeType.None? then KeyError("mimeType")
    else Text(Concat(SearchEntryLines(number, f.name.value, f.id.value, MimeLabel(f.mimeType.value), ModifiedText(f))))
  }

  /** The lines of one complete entry of the recent-files listing. The
      browser line is present exactly when the file has a `webViewLink`. */
  function RecentEntryLines(number: nat, name: string, typeLabel: string, id: string,
                            link: Option<string>, modified: string): (lines: seq<string>)
    ensures |lines| == if link.Some? then 4 else 3
    ensures lines[0] == NatText(number) + ". **" + name + "** (" + typeLabel + ")\n"
    ensures lines[1] == "   - ID: `" + id + "`\n"
    ensures link.Some? ==> lines[2] == "   - [Open in browser](" + link.value + ")\n"
    ensures lines[|lines| - 1] == "   - Modified: " + modified + "\n\n"
  {
    [NatText(number) + ". **" + name + "** (" + typeLabel + ")\n", "   - ID: `" + id + "`\n"] +
    (if link.Some? then ["   - [Open in browser](" + link.value + ")\n"] else []) +
    ["   - Modified: " + modified + "\n\n"]
  }

  /** One entry of the recent-files listing; `file['mimeType']` is read
      first, then `file['name']` and `file['id']`. */
  function RecentEntry(number: nat, f: DriveFile): (r: Formatted)
    ensures r.KeyError? <==> Incomplete(f)
    ensures r.KeyError? ==> r.key == if f.mimeType.None? then "mimeType" else if f.name.None? then "name" else "id"
  {
    if f.mimeType.None? then KeyError("mimeType")
    else if f.name.None? then KeyError("name")
    else if f.id.None? then KeyError("id")
    else Text(Concat(RecentEntryLines(number, f.name.value, MimeLabel(f.mimeType.value), f.id.value,
                                      f.webViewLink, ModifiedText(f))))
  }

  /** How a tool writes the entry of one file, numbered `number`. */
  type EntryFormat = (nat, DriveFile) -> Formatted

  const SearchFormat: EntryFormat := (number: nat, f: DriveFile) => SearchEntry(number, f)
  const RecentFormat: EntryFormat := (number: nat, f: DriveFile) => RecentEntry(number, f)

  /** Both tools raise on exactly the incomplete files. */
  ghost predicate RaisesOnIncomplete(format: EntryFormat)
  {
    forall number: nat, f: DriveFile :: format(number, f).KeyError? <==> Incomplete(f)
  }

  lemma BothFormatsRaiseOnIncomplete()
    ensures RaisesOnIncomplete(SearchFormat) && RaisesOnIncomplete(RecentFormat)
  {
  }

  /** Which tool a listing belongs to. */
  datatype ListingKind = Search | Recent

  function FormatOf(kind: ListingKind): EntryFormat
  {
    match kind
    case Search => SearchFormat
    case Recent => RecentFormat
  }

  /** The formatted entries of `files`, file k numbered first + k. */
  function EntryItems(format: EntryFormat, files: seq<DriveFile>, first: nat): (items: seq<Formatted>)
    ensures |items| == |files|
  {
    if files == [] then []
    else EntryItems(format, files[..|files| - 1], first) + [format(first + |files| - 1, files[|files| - 1])]
  }

  /** The k-th item is the entry of the k-th file, numbered first + k. */
  lemma {:induction false} EntryItemsAt(format: EntryFormat, files: seq<DriveFile>, first: nat, k: nat)
    requires k < |files|
    ensures EntryItems(format, files, first)[k] == format(first + k, files[k])
  {
    var n := |files| - 1;
    if k < n {
      EntryItemsAt(format, files[..n], first, k);
      assert files[..n][k] == files[k];
    }
  }

  /** The `result +=` loop over the entries: the first `KeyError` ends it,
      otherwise the texts are appended in order. */
  function Collect(items: seq<Formatted>): Formatted
  {
    if items == [] then Text("")
    else
      match Collect(items[..|items| - 1])
      case KeyError(k) => KeyError(k)
      case Text(t) =>
        match items[|items| - 1]
        case KeyError(k) => KeyError(k)
        case Text(e) => Text(t + e)
  }

  /** The texts of the items. */
  function Texts(items: seq<Formatted>): seq<string>
  {
    seq(|items|, k requires 0 <= k < |items| => TextOf(items[k]))
  }

  /** The loop raises exactly when some entry raises. */
  lemma {:induction false} CollectRaiseIff(items: seq<Formatted>)
    ensures Collect(items).KeyError? <==> exists k :: 0 <= k < |items| && items[k].KeyError?
  {
    if items != [] {
      var n := |items| - 1;
      CollectRaiseIff(items[..n]);
      assert forall k :: 0 <= k < n ==> items[..n][k] == items[k];
    }
  }

  /** A raising loop raises the error of the first raising entry. */
  lemma {:induction false} CollectFirstError(items: seq<Formatted>, k: nat)
    requires k < |items| && items[k].KeyError?
    requires forall m :: 0 <= m < k ==> items[m].Text?
    ensures Collect(items) == items[k]
  {
    var n := |items| - 1;
    assert forall m :: 0 <= m < n ==> items[..n][m] == items[m];
    if k < n {
      CollectFirstError(items[..n], k);
    } else {
      CollectRaiseIff(items[..n]);
    }
  }

  /** A loop that does not raise yields the entries' texts in order. */
  lemma {:induction false} CollectText(items: seq<Formatted>)
    requires Collect(items).Text?
    ensures Collect(items) == Text(Concat(Texts(items)))
  {
    if items != [] {
      var n := |items| - 1;
      CollectText(items[..n]);
      var last := TextOf(items[n]);
      assert Texts(items) == Texts(items[..n]) + [last];
      ConcatAppend(Texts(items[..n]), [last]);
      assert Concat([last]) == last;
    }
  }

  /** Once a prefix raises, the whole loop raises the same error. */
  lemma {:induction false} CollectStopsAtError(items: seq<Formatted>, i: nat)
    requires i <= |items|
    requires Collect(items[..i]).KeyError?
    ensures Collect(items) == Collect(items[..i])
    decreases |items|
  {
    if i < |items| {
      var n := |items| - 1;
      assert items[..n][..i] == items[..i];
      CollectStopsAtError(items[..n], i);
    } else {
      assert items[..i] == items;
    }
  }

  /** One turn of the loop: an error entry ends it with that error, a text
      entry is appended. */
  lemma {:induction false} CollectStep(items: seq<Formatted>, i: nat, result: string)
    requires i < |items| && Collect(items[..i]) == Text(result)
    ensures items[i].KeyError? ==> Collect(items) == items[i]
    ensures items[i].Text? ==> Collect(items[..i + 1]) == Text(result + items[i].text)
  {
    assert items[..i + 1][..i] == items[..i];
    if items[i].KeyError? {
      CollectStopsAtError(items, i + 1);
    }
  }

  /** A listing raises exactly when one of its files is incomplete, and
      then with the error of the first incomplete file. */
  lemma {:induction false} ListingRaises(format: EntryFormat, files: seq<DriveFile>, first: nat)
    requires RaisesOnIncomplete(format)
    ensures Collect(EntryItems(format, files, first)).KeyError? <==> exists k :: 0 <= k < |files| && Incomplete(files[k])
    ensures forall k :: 0 <= k < |files| && Incomplete(files[k]) && (forall m :: 0 <= m < k ==> !Incomplete(files[m])) ==>
              Collect(EntryItems(format, files, first)) == format(first + k, files[k])
  {
    var items := EntryItems(format, files, first);
    forall k | 0 <= k < |files|
      ensures items[k] == format(first + k, files[k])
    {
      EntryItemsAt(format, files, first, k);
    }
    CollectRaiseIff(items);
    forall k | 0 <= k < |files| && Incomplete(files[k]) && (forall m :: 0 <= m < k ==> !Incomplete(files[m]))
      ensures Collect(items) == format(first + k, files[k])
    {
      CollectFirstError(items, k);
    }
  }

  /** A listing of complete files is the texts of their entries in order,
      file k numbered first + k. */
  lemma {:induction false} ListingText(format: EntryFormat, files: seq<DriveFile>, first: nat)
    requires RaisesOnIncomplete(format)
    requires forall k :: 0 <= k < |files| ==> !Incomplete(files[k])
    ensures Collect(EntryItems(format, files, first)) == Text(Concat(Texts(EntryItems(format, files, first))))
    ensures forall k :: 0 <= k < |files| ==>
              Texts(EntryItems(format, files, first))[k] == TextOf(format(first + k, files[k]))
  {
    ListingRaises(format, files, first);
    CollectText(EntryItems(format, files, first));
    forall k | 0 <= k < |files|
      ensures Texts(EntryItems(format, files, first))[k] == TextOf(format(first + k, files[k]))
    {
      EntryItemsAt(format, files, first, k);
    }
  }

  /** Reference definition of the text of `search_google_drive`. */
  function SearchListing(query: string, files: seq<DriveFile>): Formatted
  {
    if files == [] then Text("No files found matching '" + query + "'")
    else
      match Collect(EntryItems(SearchFormat, files, 1))
      case KeyError(k) => KeyError(k)
      case Text(t) => Text("Found " + NatText(|files|) + " file(s):\n\n" + t)
  }

  /** A failed search is not reported: the error entry has no `name`, so the
      tool raises `KeyError('name')`. */
  lemma {:induction false} SearchErrorRaisesKeyError(query: string, message: string)
    ensures SearchListing(query, FilesOrErrorEntry(Raised(message))) == KeyError("name")
  {
    assert [ErrorEntry][..0] == [];
    assert EntryItems(SearchFormat, [ErrorEntry], 1) == [KeyError("name")];
    assert [KeyError("name")][..0] == [];
  }

  /** A search that meets an incomplete file raises the error of the first
      one, whatever follows it. */
  lemma {:induction false} SearchRaisesAtFirstIncomplete(query: string, files: seq<DriveFile>, k: nat)
    requires k < |files| && Incomplete(files[k])
    requires forall m :: 0 <= m < k ==> !Incomplete(files[m])
    ensures SearchListing(query, files) == SearchEntry(k + 1, files[k])
  {
    BothFormatsRaiseOnIncomplete();
    ListingRaises(SearchFormat, files, 1);
  }

  /** A search over complete files lists them all, numbered 1..n in order. */
  lemma {:induction false} SearchListingNumbered(query: string, files: seq<DriveFile>)
    requires files != []
    requires forall k :: 0 <= k < |files| ==> files[k].name.Some? && files[k].id.Some? && files[k].mimeType.Some?
    ensures SearchListing(query, files) ==
              Text("Found " + NatText(|files|) + " file(s):\n\n" + Concat(Texts(EntryItems(SearchFormat, files, 1))))
    ensures forall k :: 0 <= k < |files| ==>
              Texts(EntryItems(SearchFormat, files, 1))[k] ==
                Concat(SearchEntryLines(k + 1, files[k].name.value, files[k].id.value,
                                        MimeLabel(files[k].mimeType.value), ModifiedText(files[k])))
  {
    BothFormatsRaiseOnIncomplete();
    ListingText(SearchFormat, files, 1);
    forall k | 0 <= k < |files| {
      SearchItemText(files, k);
    }
  }

  lemma {:induction false} SearchItemText(files: seq<DriveFile>, k: nat)
    requires k < |files| && files[k].name.Some? && files[k].id.Some? && files[k].mimeType.Some?
    ensures Texts(EntryItems(SearchFormat, files, 1))[k] ==
              Concat(SearchEntryLines(k + 1, files[k].name.value, files[k].id.value,
                                      MimeLabel(files[k].mimeType.value), ModifiedText(files[k])))
  {
    EntryItemsAt(SearchFormat, files, 1, k);
  }

  /** The body of the loop of `search_google_drive` for one file. */
  method FormatSearchEntry(number: nat, f: DriveFile) returns (r: Formatted)
    ensures r == SearchEntry(number, f)
  {
    if f.name.None? { return KeyError("name"); }
    var line0 := NatText(number) + ". **" + f.name.value + "**\n";
    if f.id.None? { return KeyError("id"); }
    var line1 := "   - ID: `" + f.id.value + "`\n";
    if f.mimeType.None? { return KeyError("mimeType"); }
    var fileType := MimeLabel(f.mimeType.value);
    var line2 := "   - Type: " + fileType + "\n";
    var line3 := "   - Modified: " + ModifiedText(f) + "\n\n";
    ghost var lines := SearchEntryLines(number, f.name.value, f.id.value, fileType, ModifiedText(f));
    ConcatOfFour(lines);
    return Text(line0 + line1 + line2 + line3);
  }

  /** `search_google_drive`. */
  method SearchGoogleDrive(query: string, fetched: Outcome<seq<DriveFile>>) returns (r: Formatted)
    ensures r == SearchListing(query, FilesOrErrorEntry(fetched))
  {
    var files := FilesOrErrorEntry(fetched);
    if files == [] {
      return Text("No files found matching '" + query + "'");
    }
    var result := "Found " + NatText(|files|) + " file(s):\n\n";
    var entries := CollectEntries(Search, SearchFormat, files);
    if entries.KeyError? {
      return entries;
    }
    return Text(result + entries.text);
  }

  /** At most 20 files are listed. */
  const RecentLimit := 20

  /** Reference definition of the text of `list_recent_files`. */
  function RecentListing(files: seq<DriveFile>): Formatted
  {
    if files == [] then Text("No files found or unable to access files.")
    else
      match Collect(EntryItems(RecentFormat, files[..Min(|files|, RecentLimit)], 1))
      case KeyError(k) => KeyError(k)
      case Text(t) => Text("## Your Recent Files:\n\n" + t)
  }

  /** Files after the 20th never affect the listing. */
  lemma {:induction false} RecentShowsFirst20(files: seq<DriveFile>)
    requires |files| > RecentLimit
    ensures RecentListing(files) == RecentListing(files[..RecentLimit])
  {
    assert files[..RecentLimit][..RecentLimit] == files[..RecentLimit];
  }

  /** The recent-files listing of complete files: the first min(n, 20) of
      them, numbered from 1, each with a browser line exactly when it has a
      `webViewLink`. */
  lemma {:induction false} RecentListingNumbered(files: seq<DriveFile>)
    requires files != []
    requires forall k :: 0 <= k < |files| ==> files[k].name.Some? && files[k].id.Some? && files[k].mimeType.Some?
    ensures RecentListing(files) ==
              Text("## Your Recent Files:\n\n" + Concat(Texts(EntryItems(RecentFormat, files[..Min(|files|, RecentLimit)], 1))))
    ensures forall k :: 0 <= k < Min(|files|, RecentLimit) ==>
              Texts(EntryItems(RecentFormat, files[..Min(|files|, RecentLimit)], 1))[k] ==
                Concat(RecentEntryLines(k + 1, files[k].name.value, MimeLabel(files[k].mimeType.value),
                                        files[k].id.value, files[k].webViewLink, ModifiedText(files[k])))
  {
    var shown := files[..Min(|files|, RecentLimit)];
    BothFormatsRaiseOnIncomplete();
    ListingText(RecentFormat, shown, 1);
    forall k | 0 <= k < |shown| {
      RecentItemText(files, shown, k);
    }
  }

  lemma {:induction false} RecentItemText(files: seq<DriveFile>, shown: seq<DriveFile>, k: nat)
    requires shown == files[..Min(|files|, RecentLimit)]
    requires k < |shown| && files[k].name.Some? && files[k].id.Some? && files[k].mimeType.Some?
    ensures Texts(EntryItems(RecentFormat, shown, 1))[k] ==
              Concat(RecentEntryLines(k + 1, files[k].name.value, MimeLabel(files[k].mimeType.value),
                                      files[k].id.value, files[k].webViewLink, ModifiedText(files[k])))
  {
    EntryItemsAt(RecentFormat, shown, 1, k);
  }

  /** A listing that meets an incomplete file among the first 20 raises the
      error of the first one. */
  lemma {:induction false} RecentRaisesAtFirstIncomplete(files: seq<DriveFile>, k: nat)
    requires k < |files| && k < RecentLimit && Incomplete(files[k])
    requires forall m :: 0 <= m < k ==> !Incomplete(files[m])
    ensures RecentListing(files) == RecentEntry(k + 1, files[k])
  {
    var shown := files[..Min(|files|, RecentLimit)];
    assert shown[k] == files[k];
    assert forall m :: 0 <= m < k ==> shown[m] == files[m];
    BothFormatsRaiseOnIncomplete();
    ListingRaises(RecentFormat, shown, 1);
  }

  /** A failed listing is not reported: the error entry has no `mimeType`,
      so the tool raises `KeyError('mimeType')`. */
  lemma {:induction false} RecentErrorRaisesKeyError(message: string)
    ensures RecentListing(FilesOrErrorEntry(Raised(message))) == KeyError("mimeType")
  {
    assert [ErrorEntry][..1] == [ErrorEntry];
    assert [ErrorEntry][..0] == [];
    assert EntryItems(RecentFormat, [ErrorEntry], 1) == [KeyError("mimeType")];
    assert [KeyError("mimeType")][..0] == [];
  }

  /** The body of the loop of `list_recent_files` for one file. */
  method FormatRecentEntry(number: nat, f: DriveFile) returns (r: Formatted)
    ensures r == RecentEntry(number, f)
  {
    if f.mimeType.None? { return KeyError("mimeType"); }
    var fileType := MimeLabel(f.mimeType.value);
    if f.name.None? { return KeyError("name"); }
    var line0 := NatText(number) + ". **" + f.name.value + "** (" + fileType + ")\n";
    if f.id.None? { return KeyError("id"); }
    var line1 := "   - ID: `" + f.id.value + "`\n";
    var line3 := "   - Modified: " + ModifiedText(f) + "\n\n";
    if f.webViewLink.Some? {
      var line2 := "   - [Open in browser](" + f.webViewLink.value + ")\n";
      RecentLinesWithLink(number, f, line0, line1, line2, line3);
      return Text(line0 + line1 + line2 + line3);
    }
    RecentLinesWithoutLink(number, f, line0, line1, line3);
    return Text(line0 + line1 + line3);
  }

  lemma {:induction false} RecentLinesWithLink(number: nat, f: DriveFile, line0: string, line1: string, line2: string, line3: string)
    requires f.mimeType.Some? && f.name.Some? && f.id.Some? && f.webViewLink.Some?
    requires line0 == NatText(number) + ". **" + f.name.value + "** (" + MimeLabel(f.mimeType.value) + ")\n"
    requires line1 == "   - ID: `" + f.id.value + "`\n"
    requires line2 == "   - [Open in browser](" + f.webViewLink.value + ")\n"
    requires line3 == "   - Modified: " + ModifiedText(f) + "\n\n"
    ensures RecentEntry(number, f) == Text(line0 + line1 + line2 + line3)
  {
    var lines := RecentEntryLines(number, f.name.value, MimeLabel(f.mimeType.value), f.id.value, f.webViewLink, ModifiedText(f));
    ConcatOfFour(lines);
  }

  lemma {:induction false} RecentLinesWithoutLink(number: nat, f: DriveFile, line0: string, line1: string, line3: string)
    requires f.mimeType.Some? && f.name.Some? && f.id.Some? && f.webViewLink.None?
    requires line0 == NatText(number) + ". **" + f.name.value + "** (" + MimeLabel(f.mimeType.value) + ")\n"
    requires line1 == "   - ID: `" + f.id.value + "`\n"
    requires line3 == "   - Modified: " + ModifiedText(f) + "\n\n"
    ensures RecentEntry(number, f) == Text(line0 + line1 + line3)
  {
    var lines := RecentEntryLines(number, f.name.value, MimeLabel(f.mimeType.value), f.id.value, f.webViewLink, ModifiedText(f));
    ConcatOfThree(lines);
  }

  /** The loop body for one file, as the tool of `kind` writes it;
      `format` names the reference definition of that tool's entries. */
  method FormatEntry(kind: ListingKind, ghost format: EntryFormat, number: nat, f: DriveFile) returns (r: Formatted)
    requires format == FormatOf(kind)
    ensures r == format(number, f)
  {
    match kind {
      case Search => r := FormatSearchEntry(number, f);
      case Recent => r := FormatRecentEntry(number, f);
    }
  }

  /** The `for i, file in enumerate(files, 1)` loop of both tools: appends
      each entry in turn and stops at the first `KeyError`. */
  method CollectEntries(kind: ListingKind, ghost format: EntryFormat, files: seq<DriveFile>) returns (r: Formatted)
    requires format == FormatOf(kind)
    ensures r == Collect(EntryItems(format, files, 1))
  {
    var result := "";
    ghost var items := EntryItems(format, files, 1);
    var i := 0;
    while i < |files|
      invariant 0 <= i <= |files|
      invariant Collect(items[..i]) == Text(result)
    {
      var entry := FormatEntry(kind, format, 1 + i, files[i]);
      EntryItemsAt(format, files, 1, i);
      CollectStep(items, i, result);
      if entry.KeyError? {
        return entry;
      }
      result := result + entry.text;
      i := i + 1;
    }
    assert items[..i] == items;
    return Text(result);
  }

  /** `list_recent_files`. */
  method ListRecentFiles(fetched: Outcome<seq<DriveFile>>) returns (r: Formatted)
    ensures r == RecentListing(FilesOrErrorEntry(fetched))
  {
    var files := FilesOrErrorEntry(fetched);
    if files == [] {
      return Text("No files found or unable to access files.");
    }
    var result := "## Your Recent Files:\n\n";
    var entries := CollectEntries(Recent, RecentFormat, files[..Min(|files|, RecentLimit)]);
    if entries.KeyError? {
      return entries;
    }
    return Text(result + entries.text);
  }
}
