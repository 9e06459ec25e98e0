/** CSV export (`lib/export.ts`). A row is an object's own properties in
    insertion order; every record field is quoted with embedded quotes
    doubled, while the header line joins the bare keys. */
module Export {
  import opened Wrappers
  import opened Seqs
  import opened Text
  import opened Types

  /** The property values the export meets: strings, whole numbers, other
      numbers and `undefined`. */
  datatype Value = Str(s: string) | Int(i: int) | Num(x: real) | Undefined

  type Row = seq<(string, Value)>

  /** `Object.keys(row)`. */
  function Keys(row: Row): (r: seq<string>)
    ensures |r| == |row|
    ensures forall j :: 0 <= j < |row| ==> r[j] == row[j].0
  {
    seq(|row|, (j: int) requires 0 <= j < |row| => row[j].0)
  }

  /** `row[key]`: the value of the first property with that key, `undefined`
      when there is none. */
  function Lookup(row: Row, key: string): (v: Value)
    ensures (forall j :: 0 <= j < |row| ==> row[j].0 != key) ==> v == Undefined
    ensures forall j :: 0 <= j < |row| && row[j].0 == key && (forall k :: 0 <= k < j ==> row[k].0 != key) ==> v == row[j].1
  {
    if |row| == 0 then Undefined
    else if row[0].0 == key then row[0].1
    else Lookup(row[1..], key)
  }

  /** A key that occurs first at position `j` finds that position's value. */
  lemma LookupFirst(row: Row, j: nat)
    requires j < |row|
    requires forall k :: 0 <= k < j ==> row[k].0 != row[j].0
    ensures Lookup(row, row[j].0) == row[j].1
  {
  }

  /** With distinct keys, looking the row's own keys up yields its values in
      order. */
  lemma FieldsOfDistinctKeys(row: Row, show: real -> string)
    requires NoDuplicates(Keys(row))
    ensures Fields(row, Keys(row), show) == Values(row, show)
  {
    forall j | 0 <= j < |row| ensures Lookup(row, row[j].0) == row[j].1 {
      assert Keys(row)[j] == row[j].0;
      LookupFirst(row, j);
    }
  }

  /** The row's values, stringified, in property order. */
  function Values(row: Row, show: real -> string): (r: seq<string>)
    ensures |r| == |row|
    ensures forall j :: 0 <= j < |row| ==> r[j] == Stringify(row[j].1, show)
  {
    seq(|row|, (j: int) requires 0 <= j < |row| => Stringify(row[j].1, show))
  }

  /** `String(value)`. How a non-integral number prints is the parameter
      `show`. */
  function Stringify(v: Value, show: real -> string): string {
    match v
    case Str(s) => s
    case Int(i) => IntToString(i)
    case Num(x) => show(x)
    case Undefined => "undefined"
  }

  /** `replace(/"/g, '""')`. */
  function Escape(s: string): (r: string)
    ensures |r| >= |s|
    ensures forall c :: c in r ==> c in s || c == '"'
  {
    if |s| == 0 then ""
    else (if s[0] == '"' then "\"\"" else [s[0]]) + Escape(s[1..])
  }

  /** A record field: the escaped text between two double quotes. */
  function Quote(s: string): (r: string)
    ensures |r| >= 2 && r[0] == '"' && r[|r| - 1] == '"'
  {
    "\"" + Escape(s) + "\""
  }

  function QuoteAll(fields: seq<string>): (r: seq<string>)
    ensures |r| == |fields|
    ensures forall i :: 0 <= i < |fields| ==> r[i] == Quote(fields[i])
  {
    seq(|fields|, (i: int) requires 0 <= i < |fields| => Quote(fields[i]))
  }

  /** One record line. */
  function FormatRecord(fields: seq<string>): string {
    Join(QuoteAll(fields), ",")
  }

  /** Reads escaped field text up to its closing quote; answers the text and
      what follows the closing quote. */
  function ParseQuotedBody(t: string): (r: Option<(string, string)>)
    ensures r.Some? ==> |r.value.1| < |t|
    decreases |t|
  {
    if |t| == 0 then None
    else if t[0] == '"' then
      if 2 <= |t| && t[1] == '"' then
        match ParseQuotedBody(t[2..])
        case None => None
        case Some(p) => Some(("\"" + p.0, p.1))
      else Some(("", t[1..]))
    else
      match ParseQuotedBody(t[1..])
      case None => None
      case Some(p) => Some(([t[0]] + p.0, p.1))
  }

  /** One or more quoted fields separated by commas. */
  function ParseFields(t: string): (r: Option<seq<string>>)
    ensures r.Some? ==> 1 <= |r.value|
    decreases |t|
  {
    if |t| == 0 || t[0] != '"' then None
    else
      match ParseQuotedBody(t[1..])
      case None => None
      case Some(p) =>
        var rest := p.1;
        if |rest| == 0 then Some([p.0])
        else if rest[0] == ',' then
          match ParseFields(rest[1..])
          case None => None
          case Some(more) => Some([p.0] + more)
        else None
  }

  /** A CSV record as the export writes it; the empty line is the record of
      no fields. */
  function ParseRecord(t: string): Option<seq<string>> {
    if |t| == 0 then Some([]) else ParseFields(t)
  }

  /** Escaping is undone by reading up to the closing quote, whatever the
      text holds, as long as no quote follows the closing one. */
  lemma {:induction false} ParseEscaped(s: string, rest: string)
    requires |rest| == 0 || rest[0] != '"'
    ensures ParseQuotedBody(Escape(s) + "\"" + rest) == Some((s, rest))
  {
    var t := Escape(s) + "\"" + rest;
    if |s| == 0 {
      assert t == "\"" + rest;
      assert t[1..] == rest;
    } else if s[0] == '"' {
      assert t == "\"\"" + (Escape(s[1..]) + "\"" + rest);
      assert t[2..] == Escape(s[1..]) + "\"" + rest;
      ParseEscaped(s[1..], rest);
      assert "\"" + s[1..] == s;
    } else {
      assert t == [s[0]] + (Escape(s[1..]) + "\"" + rest);
      assert t[1..] == Escape(s[1..]) + "\"" + rest;
      ParseEscaped(s[1..], rest);
      assert [s[0]] + s[1..] == s;
    }
  }

  /** Every record line reads back as the fields it was written from, commas,
      quotes and line breaks inside fields included. */
  lemma {:induction false} RecordRoundTrip(fields: seq<string>)
    ensures ParseRecord(FormatRecord(fields)) == Some(fields)
  {
    if |fields| > 0 {
      FieldsRoundTrip(fields);
    }
  }

  lemma {:induction false} FieldsRoundTrip(fields: seq<string>)
    requires 1 <= |fields|
    ensures ParseFields(FormatRecord(fields)) == Some(fields)
  {
    var q := QuoteAll(fields);
    if |fields| == 1 {
      assert FormatRecord(fields) == Quote(fields[0]);
      ParseLastField(fields[0]);
      assert [fields[0]] == fields;
    } else {
      var more := FormatRecord(fields[1..]);
      assert q[1..] == QuoteAll(fields[1..]);
      assert FormatRecord(fields) == Quote(fields[0]) + "," + more;
      FieldsRoundTrip(fields[1..]);
      ParseNextField(fields[0], more, fields[1..]);
      assert [fields[0]] + fields[1..] == fields;
    }
  }

  /** A quoted field that ends the line reads back as one field. */
  lemma ParseLastField(f: string)
    ensures ParseFields(Quote(f)) == Some([f])
  {
    var t := Quote(f);
    assert t[1..] == Escape(f) + "\"" + "";
    ParseEscaped(f, "");
  }

  /** A quoted field followed by a comma reads back ahead of what the rest of
      the line reads as. */
  lemma ParseNextField(f: string, more: string, tail: seq<string>)
    requires ParseFields(more) == Some(tail)
    ensures ParseFields(Quote(f) + "," + more) == Some([f] + tail)
  {
    var t := Quote(f) + "," + more;
    assert t[0] == '"';
    assert t[1..] == Escape(f) + "\"" + ("," + more);
    ParseEscaped(f, "," + more);
    assert ("," + more)[1..] == more;
  }

  /** A character other than the quote and the comma appears in a record line
      only when some field holds it. */
  lemma RecordFreeOf(fields: seq<string>, c: char)
    requires c != '"' && c != ','
    requires forall i :: 0 <= i < |fields| ==> c !in fields[i]
    ensures c !in FormatRecord(fields)
  {
    JoinFreeOf(QuoteAll(fields), ",", c);
  }

  /** The stringified values of `row` under `headers`. */
  function Fields(row: Row, headers: seq<string>, show: real -> string): (r: seq<string>)
    ensures |r| == |headers|
    ensures forall k :: 0 <= k < |headers| ==> r[k] == Stringify(Lookup(row, headers[k]), show)
  {
    seq(|headers|, (k: int) requires 0 <= k < |headers| => Stringify(Lookup(row, headers[k]), show))
  }

  /** The header line and one record line per row, the first row's keys
      naming the columns of every row. */
  function CsvLines(data: seq<Row>, show: real -> string): (r: seq<string>)
    requires 1 <= |data|
    ensures |r| == |data| + 1
  {
    var headers := Keys(data[0]);
    [Join(headers, ",")] + seq(|data|, (i: int) requires 0 <= i < |data| => FormatRecord(Fields(data[i], headers, show)))
  }

  /** `exportToCSV` up to the download: nothing for no rows, otherwise the
      lines joined with line feeds. */
  function ExportToCsv(data: seq<Row>, show: real -> string): (r: Option<string>)
    ensures r.None? <==> |data| == 0
  {
    if |data| == 0 then None else Some(Join(CsvLines(data, show), "\n"))
  }

  predicate FreeOf(parts: seq<string>, c: char) {
    forall i :: 0 <= i < |parts| ==> c !in parts[i]
  }

  /** The exported text splits back into the header keys and, row by row, the
      stringified values, provided no key holds a comma or line break and no
      value a line break. */
  lemma ExportRoundTrip(data: seq<Row>, show: real -> string)
    requires 1 <= |data| && 1 <= |data[0]|
    requires FreeOf(Keys(data[0]), ',') && FreeOf(Keys(data[0]), '\n')
    requires forall i :: 0 <= i < |data| ==> FreeOf(Fields(data[i], Keys(data[0]), show), '\n')
    ensures var lines := Split(ExportToCsv(data, show).value, '\n');
      && |lines| == |data| + 1
      && Split(lines[0], ',') == Keys(data[0])
      && forall i :: 0 <= i < |data| ==> ParseRecord(lines[i + 1]) == Some(Fields(data[i], Keys(data[0]), show))
  {
    var headers := Keys(data[0]);
    var lines := CsvLines(data, show);
    JoinFreeOf(headers, ",", '\n');
    forall i | 0 <= i < |lines| ensures '\n' !in lines[i] {
      if 0 < i {
        RecordFreeOf(Fields(data[i - 1], headers, show), '\n');
      }
    }
    SplitJoin(lines, '\n');
    SplitJoin(headers, ',');
    forall i | 0 <= i < |data|
      ensures ParseRecord(lines[i + 1]) == Some(Fields(data[i], headers, show))
    {
      RecordRoundTrip(Fields(data[i], headers, show));
    }
  }

  // ----------------------------------------------------------- projections

  const ProductColumns: seq<string> := [
    "ID", "Title", "Price", "Platform", "Seller", "Rating", "Reviews",
    "Estimated Sales", "Listing Age (days)", "Category", "Winning Score",
    "Trend", "Last Updated"]

  function ProductRow(p: Product): (r: Row)
    ensures Keys(r) == ProductColumns
  {
    [("ID", Str(p.id)), ("Title", Str(p.title)), ("Price", Num(p.price)),
     ("Platform", Str(PlatformName(p.platform))), ("Seller", Str(p.seller)),
     ("Rating", Num(p.rating)), ("Reviews", Int(p.reviewCount)),
     ("Estimated Sales", Int(p.estimatedSales)),
     ("Listing Age (days)", Int(p.listingAge)), ("Category", Str(p.category)),
     ("Winning Score", Int(p.winningScore)),
     ("Trend", Str(ProductTrendName(p.trend))), ("Last Updated", Str(p.lastUpdated))]
  }

  /** `prepareProductsForExport`. */
  function PrepareProducts(ps: seq<Product>): (r: seq<Row>)
    ensures |r| == |ps|
    ensures forall i :: 0 <= i < |ps| ==> r[i] == ProductRow(ps[i])
  {
    seq(|ps|, (i: int) requires 0 <= i < |ps| => ProductRow(ps[i]))
  }

  /** What a product's record line holds, column by column. */
  function ProductCells(p: Product, show: real -> string): seq<string> {
    [p.id, p.title, show(p.price), PlatformName(p.platform), p.seller,
     show(p.rating), IntToString(p.reviewCount), IntToString(p.estimatedSales),
     IntToString(p.listingAge), p.category, IntToString(p.winningScore),
     ProductTrendName(p.trend), p.lastUpdated]
  }

  /** No two product columns share a name. */
  lemma ProductColumnsDistinct()
    ensures NoDuplicates(ProductColumns)
  {
    var c := ProductColumns;
    forall i, j | 0 <= i < j < |c| ensures c[i] != c[j] {
      if |c[i]| == |c[j]| {
        assert c[i][0] != c[j][0] || c[i][1] != c[j][1];
      }
    }
  }

  /** The thirteen columns resolve to the product's own fields, in order. */
  lemma ProductFields(p: Product, show: real -> string)
    ensures Fields(ProductRow(p), ProductColumns, show) == ProductCells(p, show)
  {
    var row := ProductRow(p);
    ProductColumnsDistinct();
    FieldsOfDistinctKeys(row, show);
    ProductValues(p, show);
  }

  lemma ProductValues(p: Product, show: real -> string)
    ensures Values(ProductRow(p), show) == ProductCells(p, show)
  {
  }

  /** Exported products read back as their cells under the thirteen column
      names, when no text field or printed number holds a line break. */
  lemma ProductExportRoundTrip(ps: seq<Product>, show: real -> string)
    requires 1 <= |ps|
    requires forall i :: 0 <= i < |ps| ==> FreeOf(ProductCells(ps[i], show), '\n')
    ensures var lines := Split(ExportToCsv(PrepareProducts(ps), show).value, '\n');
      && |lines| == |ps| + 1
      && Split(lines[0], ',') == ProductColumns
      && forall i :: 0 <= i < |ps| ==> ParseRecord(lines[i + 1]) == Some(ProductCells(ps[i], show))
  {
    var data := PrepareProducts(ps);
    assert Keys(data[0]) == ProductColumns;
    ProductColumnsPlain();
    forall i | 0 <= i < |data| ensures Fields(data[i], ProductColumns, show) == ProductCells(ps[i], show) {
      ProductFields(ps[i], show);
    }
    ExportRoundTrip(data, show);
  }

  /** No column name holds a comma or a line break. */
  lemma ProductColumnsPlain()
    ensures FreeOf(ProductColumns, ',') && FreeOf(ProductColumns, '\n')
  {
    var c := ProductColumns;
    forall i | 0 <= i < |c| ensures ',' !in c[i] && '\n' !in c[i] {
      assert forall k :: 0 <= k < |c[i]| ==> ' ' <= c[i][k] <= '+' || 'A' <= c[i][k] <= 'z';
    }
  }

  const KeywordColumns: seq<string> := [
    "Keyword", "Search Volume", "Difficulty", "Competition", "CPC", "Related Keywords"]

  /** A missing cost-per-click stays `undefined`. */
  function KeywordRow(k: Keyword): (r: Row)
    ensures Keys(r) == KeywordColumns
  {
    [("Keyword", Str(k.keyword)), ("Search Volume", Int(k.searchVolume)),
     ("Difficulty", Int(k.difficulty)), ("Competition", Int(k.competition)),
     ("CPC", if k.cpc.Some? then Num(k.cpc.value) else Undefined),
     ("Related Keywords", Str(Join(k.relatedKeywords, "; ")))]
  }

  /** `prepareKeywordsForExport`. */
  function PrepareKeywords(ks: seq<Keyword>): (r: seq<Row>)
    ensures |r| == |ks|
    ensures forall i :: 0 <= i < |ks| ==> r[i] == KeywordRow(ks[i])
  {
    seq(|ks|, (i: int) requires 0 <= i < |ks| => KeywordRow(ks[i]))
  }

  /** A keyword without a cost-per-click is exported with the text
      `undefined` in that column; one with it, with the printed number. */
  lemma KeywordCpcCell(k: Keyword, show: real -> string)
    ensures Fields(KeywordRow(k), KeywordColumns, show)[4]
         == (if k.cpc.Some? then show(k.cpc.value) else "undefined")
    ensures Fields(KeywordRow(k), KeywordColumns, show)[5] == Join(k.relatedKeywords, "; ")
  {
    var row := KeywordRow(k);
    KeywordColumnsDistinct();
    FieldsOfDistinctKeys(row, show);
  }

  /** The six keyword column names have six different lengths. */
  lemma KeywordColumnsDistinct()
    ensures NoDuplicates(KeywordColumns)
  {
    var c := KeywordColumns;
    forall i, j | 0 <= i < j < |c| ensures c[i] != c[j] {
      assert |c[i]| != |c[j]|;
    }
  }
}
