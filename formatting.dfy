/**
  The prompt renderers: the fixed-width table with its "point"-column exclusion and its
  `remaining_issues` row filter, transcripts, burndown snapshots sorted into buckets, PI
  status with sorted keys, and the layout of a PI analysis input. A Python list of dicts
  arrives as a sequence of decoded values; calling `.keys()` or `.get` on an element that
  is not a dict raises, which is the `Raised` outcome.
*/
module Formatting {
  import opened Wrappers
  import opened Text
  import opened Json
  import opened Seqs

  const DefaultWidth: nat := 20
  const NotADict: string := "AttributeError: the value is not a dict"

  // ---------------------------------------------------------------------------
  // filter_columns_excluding_points

  predicate MentionsPoints(column: string) {
    Contains(Lower(column), "point")
  }

  /** The columns whose lower-cased name lacks "point", in their original order. */
  function FilterColumns(columns: seq<string>): (r: seq<string>)
    ensures forall c :: c in r <==> c in columns && !MentionsPoints(c)
    ensures |r| <= |columns|
  {
    if columns == [] then []
    else
      assert columns == [columns[0]] + columns[1..];
      (if MentionsPoints(columns[0]) then [] else [columns[0]]) + FilterColumns(columns[1..])
  }

  /** Filtering distributes over concatenation, so the surviving columns keep their order. */
  lemma {:induction false} FilterColumnsAppend(a: seq<string>, b: seq<string>)
    ensures FilterColumns(a + b) == FilterColumns(a) + FilterColumns(b)
  {
    if a == [] {
      assert a + b == b;
    } else {
      assert (a + b)[0] == a[0];
      assert (a + b)[1..] == a[1..] + b;
      FilterColumnsAppend(a[1..], b);
    }
  }

  /** Filtering twice is filtering once. */
  lemma {:induction false} FilterColumnsIdempotent(columns: seq<string>)
    ensures FilterColumns(FilterColumns(columns)) == FilterColumns(columns)
  {
    if columns != [] {
      FilterColumnsIdempotent(columns[1..]);
      var head := if MentionsPoints(columns[0]) then [] else [columns[0]];
      FilterColumnsAppend(head, FilterColumns(columns[1..]));
    }
  }

  // ---------------------------------------------------------------------------
  // format_table

  /** `f"{col[:w]:<{w}}"`: a header cell, exactly w characters wide. */
  function HeaderCell(column: string, w: nat): (r: string)
    ensures |r| == w
    ensures r[..|Take(column, w)|] == Take(column, w)
  {
    LJust(Take(column, w), w)
  }

  /** A row cell: `str(v)[:w]` padded to w, or `NULL` padded to w for a missing value. */
  function CellText(v: Value, w: nat): (r: string)
    ensures v.Null? ==> |r| == (if w < 4 then 4 else w) && r[..4] == "NULL"
    ensures !v.Null? ==> |r| == w && r[..|Take(Show(v), w)|] == Take(Show(v), w)
  {
    if v.Null? then LJust("NULL", w) else LJust(Take(Show(v), w), w)
  }

  function HeaderCells(columns: seq<string>, w: nat): (r: seq<string>)
    ensures |r| == |columns|
    ensures forall i :: 0 <= i < |columns| ==> r[i] == HeaderCell(columns[i], w)
  {
    seq(|columns|, i requires 0 <= i < |columns| => HeaderCell(columns[i], w))
  }

  /** The cell of one column of a record: `rec.get(col)` rendered by CellText. */
  function CellOf(rec: Record, column: string, w: nat): string {
    CellText(GetOrNull(rec, column), w)
  }

  /** The cells of the first n columns of a row. */
  function CellsUpTo(rec: Record, columns: seq<string>, n: nat, w: nat): (r: seq<string>)
    requires n <= |columns|
    ensures |r| == n
    ensures forall i :: 0 <= i < n ==> r[i] == CellOf(rec, columns[i], w)
  {
    if n == 0 then [] else CellsUpTo(rec, columns, n - 1, w) + [CellOf(rec, columns[n - 1], w)]
  }

  function RowCells(rec: Record, columns: seq<string>, w: nat): seq<string> {
    CellsUpTo(rec, columns, |columns|, w)
  }

  function HeaderLine(columns: seq<string>, w: nat): string {
    Join(HeaderCells(columns, w), " | ")
  }

  function RowLine(rec: Record, columns: seq<string>, w: nat): string {
    Join(RowCells(rec, columns, w), " | ")
  }

  predicate MentionsRemaining(column: string) {
    Contains(Lower(column), "remaining_issues")
  }

  /** The index of the first column naming `remaining_issues`, or |columns|. */
  function RemainingIndex(columns: seq<string>): (k: nat)
    ensures k <= |columns|
    ensures k < |columns| ==> MentionsRemaining(columns[k])
    ensures forall j :: 0 <= j < k ==> !MentionsRemaining(columns[j])
  {
    if columns == [] then 0
    else if MentionsRemaining(columns[0]) then 0
    else 1 + RemainingIndex(columns[1..])
  }

  function RemainingKey(columns: seq<string>): Option<string> {
    var k := RemainingIndex(columns);
    if k < |columns| then Some(columns[k]) else None
  }

  /**
    A `remaining_issues` value that removes its row: None, or a string that strips to nothing
    or to "null" in any case (no other value's str() can, see BlankRemainingOfShow).
  */
  predicate BlankRemaining(v: Value) {
    v.Null? || (v.Str? && IsNullText(v.s))
  }

  predicate IsNullText(s: string) {
    Lower(Strip(s)) == "" || Lower(Strip(s)) == "null"
  }

  /** The row rule as written on str(val): `val is None or str(val).strip().lower() in ('', 'null')`. */
  lemma BlankRemainingOfShow(v: Value)
    ensures BlankRemaining(v) <==> v.Null? || IsNullText(Show(v))
  {
    if !v.Null? && !v.Str? {
      var t := Show(v);
      ShowFirstChar(v);
      StripKeepsFirst(t);
      assert Lower(Strip(t))[0] == LowerChar(t[0]);
    }
  }

  predicate RowKept(rec: Record, key: Option<string>) {
    key.None? || !BlankRemaining(GetOrNull(rec, key.value))
  }

  /** The fields of a dict; an element that is not a dict contributes none. */
  function FieldsOf(v: Value): Record {
    if v.Obj? then v.fields else []
  }

  predicate AllDicts(records: seq<Value>) {
    forall i :: 0 <= i < |records| ==> records[i].Obj?
  }

  /** The records that produce a row, in order. */
  function KeptRecords(records: seq<Value>, key: Option<string>): (r: seq<Record>)
    ensures |r| <= |records|
    ensures forall x :: x in r ==> RowKept(x, key)
    ensures forall x :: x in r ==> exists i :: 0 <= i < |records| && FieldsOf(records[i]) == x
    ensures forall i :: 0 <= i < |records| && RowKept(FieldsOf(records[i]), key) ==> FieldsOf(records[i]) in r
  {
    if records == [] then []
    else
      var init := records[..|records| - 1];
      var last := FieldsOf(records[|records| - 1]);
      var rest := KeptRecords(init, key);
      assert forall i :: 0 <= i < |init| ==> FieldsOf(init[i]) == FieldsOf(records[i]);
      rest + (if RowKept(last, key) then [last] else [])
  }

  /** The row lines of the records, skipping those the `remaining_issues` rule removes. */
  function TableRows(records: seq<Value>, columns: seq<string>, key: Option<string>, w: nat): seq<string> {
    if records == [] then []
    else
      var last := FieldsOf(records[|records| - 1]);
      TableRows(records[..|records| - 1], columns, key, w)
        + (if RowKept(last, key) then [RowLine(last, columns, w)] else [])
  }

  /** The columns of a table: those of the first record, without the "point" ones. */
  function TableColumns(records: seq<Value>): seq<string> {
    if records == [] then [] else FilterColumns(Keys(FieldsOf(records[0])))
  }

  /** The list of lines format_table joins: header, dash separator, then one line per kept record. */
  function TableLines(records: seq<Value>, w: nat): seq<string> {
    var columns := TableColumns(records);
    if columns == [] then []
    else
      var header := HeaderLine(columns, w);
      [header, Repeat('-', |header|)] + TableRows(records, columns, RemainingKey(columns), w)
  }

  /** format_table: "" for no records or no surviving column, else the joined lines. */
  function TableOf(records: seq<Value>, w: nat): Result<string> {
    if records == [] then Ok("")
    else if !records[0].Obj? then Raised(NotADict)
    else if TableColumns(records) == [] then Ok("")
    else if !AllDicts(records) then Raised(NotADict)
    else Ok(Join(TableLines(records, w), "\n"))
  }

  method FormatTable(records: seq<Value>, w: nat) returns (r: Result<string>)
    ensures r == TableOf(records, w)
  {
    if records == [] {
      return Ok("");
    }
    if !records[0].Obj? {
      return Raised(NotADict);
    }
    var columns := FilterColumns(Keys(records[0].fields));
    if columns == [] {
      return Ok("");
    }
    var header := HeaderLine(columns, w);
    var lines := [header, Repeat('-', |header|)];
    var remainingKey := FindRemainingKey(columns);
    var rows := AddRows(records, columns, remainingKey, w);
    if rows.None? {
      return Raised(NotADict);
    }
    return Ok(Join(lines + rows.value, "\n"));
  }

  /** The row loop of format_table; None when it reaches a record that is not a dict. */
  method AddRows(records: seq<Value>, columns: seq<string>, key: Option<string>, w: nat) returns (rows: Option<seq<string>>)
    ensures rows.None? <==> !AllDicts(records)
    ensures rows.Some? ==> rows.value == TableRows(records, columns, key, w)
  {
    var lines: seq<string> := [];
    var i := 0;
    while i < |records|
      invariant i <= |records|
      invariant AllDicts(records[..i])
      invariant lines == TableRows(records[..i], columns, key, w)
    {
      var isDict, more := RowFor(records[i], columns, key, w);
      if !isDict {
        NotAllDicts(records, i);
        return None;
      }
      TableRowsStep(records, i, columns, key, w);
      AllDictsExtend(records, i);
      lines := lines + more;
      i := i + 1;
    }
    assert records[..i] == records;
    return Some(lines);
  }

  lemma NotAllDicts(records: seq<Value>, i: nat)
    requires i < |records| && !records[i].Obj?
    ensures !AllDicts(records)
  {
  }

  lemma AllDictsExtend(records: seq<Value>, i: nat)
    requires i < |records| && AllDicts(records[..i]) && records[i].Obj?
    ensures AllDicts(records[..i + 1])
  {
    assert forall k :: 0 <= k < i ==> records[..i + 1][k] == records[..i][k];
  }

  /** One iteration of the row loop: nothing for a skipped record, else its row line. */
  method RowFor(rec: Value, columns: seq<string>, key: Option<string>, w: nat) returns (isDict: bool, more: seq<string>)
    ensures isDict == rec.Obj?
    ensures isDict ==> more == if RowKept(FieldsOf(rec), key) then [RowLine(FieldsOf(rec), columns, w)] else []
  {
    if !rec.Obj? {
      return false, [];
    }
    if key.Some? && BlankRemaining(GetOrNull(rec.fields, key.value)) {
      return true, [];
    }
    var row := BuildRow(rec.fields, columns, w);
    return true, [row];
  }

  /** The loop that picks the first column naming `remaining_issues`. */
  method FindRemainingKey(columns: seq<string>) returns (key: Option<string>)
    ensures key == RemainingKey(columns)
  {
    key := None;
    var k := 0;
    while k < |columns|
      invariant k <= |columns|
      invariant forall j :: 0 <= j < k ==> !MentionsRemaining(columns[j])
    {
      if MentionsRemaining(columns[k]) {
        key := Some(columns[k]);
        break;
      }
      k := k + 1;
    }
    assert k == RemainingIndex(columns);
  }

  /** The inner loop of format_table: one padded cell per column, joined by " | ". */
  method BuildRow(rec: Record, columns: seq<string>, w: nat) returns (row: string)
    ensures row == RowLine(rec, columns, w)
  {
    var cells: seq<string> := [];
    var j := 0;
    while j < |columns|
      invariant j <= |columns|
      invariant cells == CellsUpTo(rec, columns, j, w)
    {
      cells := cells + [CellOf(rec, columns[j], w)];
      j := j + 1;
    }
    row := Join(cells, " | ");
  }

  lemma TableRowsStep(records: seq<Value>, i: nat, columns: seq<string>, key: Option<string>, w: nat)
    requires i < |records|
    ensures TableRows(records[..i + 1], columns, key, w) == TableRows(records[..i], columns, key, w)
      + (if RowKept(FieldsOf(records[i]), key) then [RowLine(FieldsOf(records[i]), columns, w)] else [])
  {
    assert records[..i + 1][..i] == records[..i];
  }

  // ---------------------------------------------------------------------------
  // what format_table promises

  /** sep.join of parts that all have length n. */
  lemma {:induction false} JoinUniform(parts: seq<string>, sep: string, n: nat)
    requires parts != []
    requires forall i :: 0 <= i < |parts| ==> |parts[i]| == n
    ensures |Join(parts, sep)| == |parts| * n + |sep| * (|parts| - 1)
  {
    if |parts| > 1 {
      JoinUniform(parts[1..], sep, n);
    }
  }

  /** The header is |columns| cells of width w separated by " | ". */
  lemma HeaderLength(columns: seq<string>, w: nat)
    requires columns != []
    ensures |HeaderLine(columns, w)| == |columns| * w + 3 * (|columns| - 1)
  {
    JoinUniform(HeaderCells(columns, w), " | ", w);
  }

  /** With w >= 4 every row is exactly as wide as the header (a NULL cell fits in the width). */
  lemma RowAligned(rec: Record, columns: seq<string>, w: nat)
    requires columns != [] && w >= 4
    ensures |RowLine(rec, columns, w)| == |HeaderLine(columns, w)|
  {
    JoinUniform(RowCells(rec, columns, w), " | ", w);
    HeaderLength(columns, w);
  }

  /** A sep.join of two or more parts is never empty when the separator is not. */
  lemma JoinOfTwo(parts: seq<string>, sep: string)
    requires |parts| >= 2 && sep != []
    ensures Join(parts, sep) != []
  {
  }

  /** The rows are the kept records' lines, one per kept record, in order. */
  lemma {:induction false} TableRowsOfKept(records: seq<Value>, columns: seq<string>, key: Option<string>, w: nat)
    ensures var kept := KeptRecords(records, key);
      && |TableRows(records, columns, key, w)| == |kept|
      && forall i :: 0 <= i < |kept| ==> TableRows(records, columns, key, w)[i] == RowLine(kept[i], columns, w)
  {
    if records != [] {
      var init := records[..|records| - 1];
      var last := FieldsOf(records[|records| - 1]);
      TableRowsOfKept(init, columns, key, w);
      assert TableRows(records, columns, key, w)
          == TableRows(init, columns, key, w) + (if RowKept(last, key) then [RowLine(last, columns, w)] else []);
      assert KeptRecords(records, key) == KeptRecords(init, key) + (if RowKept(last, key) then [last] else []);
    }
  }

  /**
    format_table returns "" exactly when there are no records or no column survives the
    "point" filter; and it raises exactly when some record is not a dict.
  */
  lemma TableEmptyIff(records: seq<Value>, w: nat)
    ensures TableOf(records, w) == Ok("") <==>
      records == [] || (records[0].Obj? && FilterColumns(Keys(records[0].fields)) == [])
    ensures TableOf(records, w).Raised? <==>
      records != [] && !AllDicts(records) && (records[0].Obj? ==> TableColumns(records) != [])
  {
    if records != [] && records[0].Obj? && TableColumns(records) != [] && AllDicts(records) {
      JoinOfTwo(TableLines(records, w), "\n");
    }
  }

  /**
    The shape of a table: the header built from the surviving columns, a dash line as long
    as the header, then exactly one line per record the `remaining_issues` rule keeps.
  */
  lemma TableShape(records: seq<Value>, w: nat)
    requires TableColumns(records) != []
    ensures var columns := TableColumns(records);
      var lines := TableLines(records, w);
      var kept := KeptRecords(records, RemainingKey(columns));
      && |lines| == 2 + |kept|
      && lines[0] == HeaderLine(columns, w)
      && |lines[1]| == |lines[0]|
      && (forall c :: 0 <= c < |lines[1]| ==> lines[1][c] == '-')
      && (forall i :: 0 <= i < |kept| ==> lines[2 + i] == RowLine(kept[i], columns, w))
      && (forall c :: c in columns ==> !MentionsPoints(c))
  {
    var columns := TableColumns(records);
    TableRowsOfKept(records, columns, RemainingKey(columns), w);
  }

  /** A record is dropped exactly when the table has a `remaining_issues` column and its value there is blank. */
  lemma RowSkipRule(rec: Record, columns: seq<string>)
    ensures !RowKept(rec, RemainingKey(columns)) <==>
      exists k :: 0 <= k < |columns| && MentionsRemaining(columns[k])
        && (forall j :: 0 <= j < k ==> !MentionsRemaining(columns[j]))
        && BlankRemaining(GetOrNull(rec, columns[k]))
  {
    var k := RemainingIndex(columns);
    if exists k' :: 0 <= k' < |columns| && MentionsRemaining(columns[k'])
        && (forall j :: 0 <= j < k' ==> !MentionsRemaining(columns[j]))
        && BlankRemaining(GetOrNull(rec, columns[k'])) {
      var k' :| 0 <= k' < |columns| && MentionsRemaining(columns[k'])
        && (forall j :: 0 <= j < k' ==> !MentionsRemaining(columns[j]))
        && BlankRemaining(GetOrNull(rec, columns[k']));
      assert k' == k;
    }
  }

  // ---------------------------------------------------------------------------
  // format_transcript

  const NoTranscript: string := "No transcript found"
  const NoTranscriptText: string := "No transcript text found"
  const TranscriptLabel: string := "Transcript:"

  /** A metadata line, `caption + str(value)`, present only when the field is truthy. */
  function MetaLine(fields: Record, key: string, caption: string): seq<string> {
    var v := GetOrNull(fields, key);
    if Truthy(v) then [caption + Show(v)] else []
  }

  /** The closing lines: the caption and str(raw_text), or the "no text" sentinel. */
  function TranscriptBody(fields: Record, caption: string): seq<string> {
    var raw := GetOrNull(fields, "raw_text");
    if Truthy(raw) then [caption, Show(raw)] else [NoTranscriptText]
  }

  function TranscriptParts(fields: Record, caption: string): seq<string> {
    MetaLine(fields, "type", "Type: ") + MetaLine(fields, "team_name", "Team/PI: ")
      + MetaLine(fields, "file_name", "File: ") + TranscriptBody(fields, caption)
  }

  /** format_transcript: the sentinel for anything but a non-empty dict, else the joined parts. */
  function TranscriptText(t: Value, caption: string): string {
    if !Truthy(t) || !t.Obj? then NoTranscript else Join(TranscriptParts(t.fields, caption), "\n")
  }

  method FormatTranscript(t: Value, caption: string) returns (r: string)
    ensures r == TranscriptText(t, caption)
  {
    if !Truthy(t) || !t.Obj? {
      return NoTranscript;
    }
    var parts: seq<string> := [];
    var kind := GetOrNull(t.fields, "type");
    if Truthy(kind) {
      parts := parts + ["Type: " + Show(kind)];
    }
    assert parts == MetaLine(t.fields, "type", "Type: ");
    var team := GetOrNull(t.fields, "team_name");
    if Truthy(team) {
      parts := parts + ["Team/PI: " + Show(team)];
    }
    assert parts == MetaLine(t.fields, "type", "Type: ") + MetaLine(t.fields, "team_name", "Team/PI: ");
    var file := GetOrNull(t.fields, "file_name");
    if Truthy(file) {
      parts := parts + ["File: " + Show(file)];
    }
    ghost var meta := parts;
    assert meta == MetaLine(t.fields, "type", "Type: ") + MetaLine(t.fields, "team_name", "Team/PI: ")
      + MetaLine(t.fields, "file_name", "File: ");
    var raw := GetOrNull(t.fields, "raw_text");
    if Truthy(raw) {
      parts := parts + [caption, Show(raw)];
    } else {
      parts := parts + [NoTranscriptText];
    }
    assert parts == meta + TranscriptBody(t.fields, caption);
    return Join(parts, "\n");
  }

  /** A dict's text ends with its caption and raw text, or with "No transcript text found". */
  lemma TranscriptEnding(fields: Record, caption: string)
    ensures var r := Join(TranscriptParts(fields, caption), "\n");
      var raw := GetOrNull(fields, "raw_text");
      && (Truthy(raw) ==> EndsWith(r, caption + "\n" + Show(raw)))
      && (!Truthy(raw) ==> EndsWith(r, NoTranscriptText))
  {
    var meta := MetaLine(fields, "type", "Type: ") + MetaLine(fields, "team_name", "Team/PI: ")
      + MetaLine(fields, "file_name", "File: ");
    var raw := GetOrNull(fields, "raw_text");
    if Truthy(raw) {
      assert TranscriptParts(fields, caption) == meta + [caption, Show(raw)];
      JoinLastTwo(meta, caption, Show(raw), "\n");
    } else {
      assert TranscriptParts(fields, caption) == meta + [NoTranscriptText];
      JoinLast(meta, NoTranscriptText, "\n");
    }
  }

  /** "No transcript found" comes out exactly when the input is not a non-empty dict. */
  lemma TranscriptSentinelIff(t: Value, caption: string)
    ensures TranscriptText(t, caption) == NoTranscript <==> !(t.Obj? && t.fields != [])
  {
    if t.Obj? && t.fields != [] {
      var r := Join(TranscriptParts(t.fields, caption), "\n");
      var raw := GetOrNull(t.fields, "raw_text");
      TranscriptEnding(t.fields, caption);
      if Truthy(raw) {
        var tail := caption + "\n" + Show(raw);
        assert r[|r| - |tail| + |caption|] == tail[|caption|] == '\n';
        assert '\n' in r;
        assert '\n' !in NoTranscript;
      }
    }
  }

  // ---------------------------------------------------------------------------
  // format_burndown_markdown

  const NoBurndown: string := "No burndown data found"
  const PreviewWidth: nat := 200

  /** The four groups a field of a burndown dict is sorted into. */
  datatype Bucket = ListField | DateField | NumberField | OtherField

  predicate NamesTime(key: string) {
    var k := Lower(key);
    Contains(k, "date") || Contains(k, "time") || Contains(k, "day")
  }

  /** An int (a bool is one), or text that is all digits once '.' and '-' are removed. */
  predicate NumericLike(v: Value) {
    v.Num? || v.Bool? || (v.Str? && IsDigits(RemoveChars(v.s, {'.', '-'})))
  }

  /** The first test that holds decides: a list value, a time-like name, a number, anything else. */
  function BucketOf(key: string, v: Value): Bucket {
    if v.Arr? then ListField
    else if NamesTime(key) then DateField
    else if NumericLike(v) then NumberField
    else OtherField
  }

  function FieldBucket(p: (string, Value)): Bucket {
    BucketOf(p.0, p.1)
  }

  /** The fields of one bucket, in the dict's order. */
  function InBucket(fields: Record, b: Bucket): (r: Record)
    ensures |r| <= |fields|
  {
    Where(FieldBucket, b, fields)
  }

  /** A bucket holds exactly the fields the classification sends to it. */
  lemma InBucketMembers(fields: Record, b: Bucket)
    ensures forall p :: p in InBucket(fields, b) <==> p in fields && BucketOf(p.0, p.1) == b
  {
    WhereMembers(FieldBucket, b, fields);
    forall p ensures p in InBucket(fields, b) <==> p in fields && BucketOf(p.0, p.1) == b {
      assert FieldBucket(p) == BucketOf(p.0, p.1);
    }
  }

  /** Every field lands in exactly one bucket: the four buckets together are the dict's fields. */
  lemma InBucketPartition(fields: Record)
    ensures |InBucket(fields, ListField)| + |InBucket(fields, DateField)|
      + |InBucket(fields, NumberField)| + |InBucket(fields, OtherField)| == |fields|
    ensures multiset(InBucket(fields, ListField)) + multiset(InBucket(fields, DateField))
      + multiset(InBucket(fields, NumberField)) + multiset(InBucket(fields, OtherField)) == multiset(fields)
  {
    WhereFour(FieldBucket, ListField, DateField, NumberField, OtherField, fields);
  }

  /** The loop that sorts the fields into the four bucket lists. */
  method ClassifyFields(fields: Record) returns (lists: Record, dates: Record, numbers: Record, others: Record)
    ensures lists == InBucket(fields, ListField) && dates == InBucket(fields, DateField)
    ensures numbers == InBucket(fields, NumberField) && others == InBucket(fields, OtherField)
  {
    lists, dates, numbers, others := [], [], [], [];
    var i := 0;
    while i < |fields|
      invariant i <= |fields|
      invariant lists == InBucket(fields[..i], ListField) && dates == InBucket(fields[..i], DateField)
      invariant numbers == InBucket(fields[..i], NumberField) && others == InBucket(fields[..i], OtherField)
    {
      WhereNext(FieldBucket, ListField, fields, i);
      WhereNext(FieldBucket, DateField, fields, i);
      WhereNext(FieldBucket, NumberField, fields, i);
      WhereNext(FieldBucket, OtherField, fields, i);
      var (k, v) := fields[i];
      if v.Arr? {
        lists := lists + [(k, v)];
      } else if NamesTime(k) {
        dates := dates + [(k, v)];
      } else if NumericLike(v) {
        numbers := numbers + [(k, v)];
      } else {
        others := others + [(k, v)];
      }
      i := i + 1;
    }
    assert fields[..i] == fields;
  }

  /** Long text cut to 200 characters and marked with "...". */
  function Cut(s: string): (r: string)
    ensures |r| <= PreviewWidth + 3
    ensures |s| <= PreviewWidth ==> r == s
    ensures |s| > PreviewWidth ==> |r| == PreviewWidth + 3
    ensures |s| > PreviewWidth ==> r[..PreviewWidth] == s[..PreviewWidth] && r[PreviewWidth..] == "..."
  {
    if |s| > PreviewWidth then s[..PreviewWidth] + "..." else s
  }

  /** `list(r.keys())[:n]`. */
  function FirstKeys(r: Record, n: nat): (ks: seq<string>)
    ensures |ks| == if |r| < n then |r| else n
    ensures forall i :: 0 <= i < |ks| ==> ks[i] == r[i].0
  {
    var all := Keys(r);
    if |all| <= n then all else all[..n]
  }

  /** The lines of one list field: a table of its dicts, or a count and a preview. */
  function ListSection(key: string, v: Value): Result<seq<string>> {
    var title := "**" + key + ":**";
    var items := if v.Arr? then v.items else [];
    if items != [] && items[0].Obj? then
      var table := TableOf(items, DefaultWidth);
      if table.Raised? then Raised(table.reason)
      else if table.value != "" then Ok([title, table.value, ""])
      else Ok([title, "- Total records: " + IntToString(|items|),
               "- Sample record fields: " + Join(FirstKeys(items[0].fields, 5), ", ") + "...", ""])
    else
      Ok([title, "- Count: " + IntToString(|items|), "- Preview: `" + Cut(Show(v)) + "`", ""])
  }

  /** The list fields' lines, one section after another; raises when a table does. */
  function ListSections(entries: Record): Result<seq<string>> {
    if entries == [] then Ok([])
    else
      var last := entries[|entries| - 1];
      var init := ListSections(entries[..|entries| - 1]);
      var piece := ListSection(last.0, last.1);
      if init.Raised? then init
      else if piece.Raised? then Raised(piece.reason)
      else Ok(init.value + piece.value)
  }

  /** `- key: `value`` lines, as the date and numeric buckets print them. */
  function QuotedLines(entries: Record): seq<string> {
    if entries == [] then []
    else
      var last := entries[|entries| - 1];
      QuotedLines(entries[..|entries| - 1]) + ["- " + last.0 + ": `" + Show(last.1) + "`"]
  }

  /** `- key: value` lines with long values cut, as the other bucket prints them. */
  function PlainLines(entries: Record): seq<string> {
    if entries == [] then []
    else
      var last := entries[|entries| - 1];
      PlainLines(entries[..|entries| - 1]) + ["- " + last.0 + ": " + Cut(Show(last.1))]
  }

  /** A titled block, present only when its bucket has fields. */
  function Block(title: string, entries: Record, body: seq<string>, trailer: seq<string>): seq<string> {
    if entries == [] then [] else [title] + body + trailer
  }

  /** The lines of a burndown dict: list sections, then dates, then numbers, then the rest. */
  function BurndownLines(fields: Record): Result<seq<string>> {
    var lists := ListSections(InBucket(fields, ListField));
    var dates := InBucket(fields, DateField);
    var numbers := InBucket(fields, NumberField);
    var others := InBucket(fields, OtherField);
    if lists.Raised? then Raised(lists.reason)
    else Ok(lists.value
      + Block("**Dates & Timeline:**", dates, QuotedLines(dates), [""])
      + Block("**Metrics & Numbers:**", numbers, QuotedLines(numbers), [""])
      + Block("**Other Information:**", others, PlainLines(others), []))
  }

  /** format_burndown_markdown: a list is a table, a non-empty dict is bucketed, the rest is the sentinel. */
  function BurndownText(b: Value): Result<string> {
    if b.Arr? then
      if b.items == [] then Ok(NoBurndown)
      else
        var table := TableOf(b.items, DefaultWidth);
        if table.Raised? then table
        else if table.value != "" then table
        else Ok(NoBurndown)
    else if !Truthy(b) || !b.Obj? then Ok(NoBurndown)
    else
      var lines := BurndownLines(b.fields);
      if lines.Raised? then Raised(lines.reason)
      else if lines.value != [] then Ok(Join(lines.value, "\n"))
      else Ok(NoBurndown)
  }

  method FormatBurndown(b: Value) returns (r: Result<string>)
    ensures r == BurndownText(b)
  {
    if b.Arr? {
      if b.items == [] {
        return Ok(NoBurndown);
      }
      var table := FormatTable(b.items, DefaultWidth);
      if table.Raised? || table.value != "" {
        return table;
      }
      return Ok(NoBurndown);
    }
    if !Truthy(b) || !b.Obj? {
      return Ok(NoBurndown);
    }
    var lines := DictLines(b.fields);
    if lines.Raised? {
      return Raised(lines.reason);
    }
    if lines.value == [] {
      return Ok(NoBurndown);
    }
    return Ok(Join(lines.value, "\n"));
  }

  /** The dict branch: classify the fields, then list sections, dates, numbers and the rest. */
  method DictLines(fields: Record) returns (r: Result<seq<string>>)
    ensures r == BurndownLines(fields)
  {
    var lists, dates, numbers, others := ClassifyFields(fields);
    var listLines := AddListSections(lists);
    if listLines.Raised? {
      return Raised(listLines.reason);
    }
    var lines := AddQuotedBlock(listLines.value, "**Dates & Timeline:**", dates);
    lines := AddQuotedBlock(lines, "**Metrics & Numbers:**", numbers);
    lines := AddPlainBlock(lines, "**Other Information:**", others);
    return Ok(lines);
  }

  /** The titled block of the other bucket, when it has fields. */
  method AddPlainBlock(lines: seq<string>, title: string, entries: Record) returns (r: seq<string>)
    ensures r == lines + Block(title, entries, PlainLines(entries), [])
  {
    r := lines;
    if entries != [] {
      r := r + [title];
      r := AddPlainLines(r, entries);
    }
  }

  /** A titled block of `- key: `value`` lines and a blank line, when the bucket has fields. */
  method AddQuotedBlock(lines: seq<string>, title: string, entries: Record) returns (r: seq<string>)
    ensures r == lines + Block(title, entries, QuotedLines(entries), [""])
  {
    r := lines;
    if entries != [] {
      r := r + [title];
      r := AddQuotedLines(r, entries);
      r := r + [""];
    }
  }

  /** The lines of one list field, calling format_table for a list of dicts. */
  method ListSectionOf(key: string, v: Value) returns (r: Result<seq<string>>)
    ensures r == ListSection(key, v)
  {
    var title := "**" + key + ":**";
    var items := if v.Arr? then v.items else [];
    if items != [] && items[0].Obj? {
      var table := FormatTable(items, DefaultWidth);
      if table.Raised? {
        return Raised(table.reason);
      }
      if table.value != "" {
        return Ok([title, table.value, ""]);
      }
      return Ok([title, "- Total records: " + IntToString(|items|),
                 "- Sample record fields: " + Join(FirstKeys(items[0].fields, 5), ", ") + "...", ""]);
    }
    return Ok([title, "- Count: " + IntToString(|items|), "- Preview: `" + Cut(Show(v)) + "`", ""]);
  }

  /** The loop over the list fields; the first table that raises ends it. */
  method AddListSections(entries: Record) returns (r: Result<seq<string>>)
    ensures r == ListSections(entries)
  {
    var lines: seq<string> := [];
    var i := 0;
    while i < |entries|
      invariant i <= |entries|
      invariant ListSections(entries[..i]) == Ok(lines)
    {
      assert entries[..i + 1][..i] == entries[..i];
      var piece := ListSectionOf(entries[i].0, entries[i].1);
      if piece.Raised? {
        ListSectionsKeepRaise(entries, i + 1);
        return Raised(piece.reason);
      }
      lines := lines + piece.value;
      i := i + 1;
    }
    assert entries[..i] == entries;
    return Ok(lines);
  }

  /** Once a prefix of the list fields raises, the whole loop raises the same way. */
  lemma {:induction false} ListSectionsKeepRaise(entries: Record, i: nat)
    requires i <= |entries| && ListSections(entries[..i]).Raised?
    ensures ListSections(entries) == ListSections(entries[..i])
    decreases |entries| - i
  {
    if i < |entries| {
      assert entries[..i + 1][..i] == entries[..i];
      ListSectionsKeepRaise(entries, i + 1);
    } else {
      assert entries[..i] == entries;
    }
  }

  /** The loop printing `- key: `value`` for each field of a bucket. */
  method AddQuotedLines(lines: seq<string>, entries: Record) returns (r: seq<string>)
    ensures r == lines + QuotedLines(entries)
  {
    r := lines;
    var i := 0;
    while i < |entries|
      invariant i <= |entries|
      invariant r == lines + QuotedLines(entries[..i])
    {
      assert entries[..i + 1][..i] == entries[..i];
      r := r + ["- " + entries[i].0 + ": `" + Show(entries[i].1) + "`"];
      i := i + 1;
    }
    assert entries[..i] == entries;
  }

  /** The loop printing `- key: value`, long values cut, for the other bucket. */
  method AddPlainLines(lines: seq<string>, entries: Record) returns (r: seq<string>)
    ensures r == lines + PlainLines(entries)
  {
    r := lines;
    var i := 0;
    while i < |entries|
      invariant i <= |entries|
      invariant r == lines + PlainLines(entries[..i])
    {
      assert entries[..i + 1][..i] == entries[..i];
      r := r + ["- " + entries[i].0 + ": " + Cut(Show(entries[i].1))];
      i := i + 1;
    }
    assert entries[..i] == entries;
  }

  /** A list is rendered by format_table, and falls back to the sentinel when that is empty. */
  lemma BurndownOfList(items: seq<Value>)
    ensures BurndownText(Arr(items)) == Ok(NoBurndown) <==>
      items == [] || TableOf(items, DefaultWidth) == Ok("") || TableOf(items, DefaultWidth) == Ok(NoBurndown)
    ensures items != [] && TableOf(items, DefaultWidth) != Ok("") ==>
      BurndownText(Arr(items)) == TableOf(items, DefaultWidth)
  {
  }

  /** A non-empty list of fields renders a first line that starts with '*'. */
  lemma {:induction false} ListSectionsFirst(entries: Record)
    requires entries != [] && ListSections(entries).Ok?
    ensures ListSections(entries).value != [] && ListSections(entries).value[0] != []
      && ListSections(entries).value[0][0] == '*'
  {
    var init := entries[..|entries| - 1];
    if init != [] {
      ListSectionsFirst(init);
    }
  }

  /** A dict renders as the sentinel exactly when it has no fields; anything else but a list does always. */
  lemma BurndownDictSentinel(b: Value)
    requires !b.Arr?
    ensures BurndownText(b) == Ok(NoBurndown) <==> !(b.Obj? && b.fields != [])
  {
    if b.Obj? && b.fields != [] {
      var fields := b.fields;
      var lists := InBucket(fields, ListField);
      var lines := BurndownLines(fields);
      if lines.Ok? {
        InBucketPartition(fields);
        if lists != [] {
          ListSectionsFirst(lists);
        }
        assert lines.value != [] && lines.value[0] != [] && lines.value[0][0] == '*';
        JoinFirst(lines.value, "\n");
      }
    }
  }

  // ---------------------------------------------------------------------------
  // format_pi_status

  const NoPiStatus: string := "No PI status data" + " available for current date."
  const PiStatusPreamble: string := "This is the status of the PI as of TODAY"

  /** Keys in non-decreasing order, as `sorted(d.items())` leaves them. */
  predicate SortedByKey(r: Record) {
    forall i :: 0 <= i < |r| - 1 ==> StrLe(r[i].0, r[i + 1].0)
  }

  /** p placed before the first pair whose key is not smaller. */
  function InsertByKey(p: (string, Value), sorted: Record): (r: Record)
    ensures |r| == |sorted| + 1
    ensures r[0] == p || (sorted != [] && r[0] == sorted[0])
    ensures multiset(r) == multiset(sorted) + multiset{p}
    ensures SortedByKey(sorted) ==> SortedByKey(r)
  {
    if sorted == [] then [p]
    else if StrLe(p.0, sorted[0].0) then [p] + sorted
    else
      var rest := InsertByKey(p, sorted[1..]);
      StrLtTotal(p.0, sorted[0].0);
      assert sorted == [sorted[0]] + sorted[1..];
      [sorted[0]] + rest
  }

  /** `sorted(d.items())`: the pairs of a dict ordered by key, a permutation of them. */
  function SortByKey(r: Record): (s: Record)
    ensures SortedByKey(s)
    ensures multiset(s) == multiset(r)
    ensures |s| == |r|
  {
    if r == [] then []
    else
      assert r == [r[0]] + r[1..];
      InsertByKey(r[0], SortByKey(r[1..]))
  }

  /** Order by key is transitive along the whole sorted sequence. */
  lemma {:induction false} SortedPairwise(r: Record, i: nat, j: nat)
    requires SortedByKey(r) && i <= j < |r|
    ensures StrLe(r[i].0, r[j].0)
    decreases j - i
  {
    if i < j {
      SortedPairwise(r, i + 1, j);
      if StrLt(r[i].0, r[i + 1].0) && StrLt(r[i + 1].0, r[j].0) {
        StrLtTransitive(r[i].0, r[i + 1].0, r[j].0);
      }
    }
  }

  function StatusLine(p: (string, Value)): string {
    p.0 + " = " + Show(p.1)
  }

  /** The status records: a dict's "data" list, else the dict itself; a list as it is. */
  function PiStatusList(p: Value): Option<seq<Value>> {
    if !Truthy(p) then None
    else if p.Obj? then
      var data := Get(p.fields, "data");
      if data.Some? && data.value.Arr? then Some(data.value.items) else Some([p])
    else if p.Arr? then Some(p.items)
    else None
  }

  /** format_pi_status: the preamble and `key = value` for the first record, keys sorted. */
  function PiStatusText(p: Value): string {
    var list := PiStatusList(p);
    if list.None? || list.value == [] then NoPiStatus
    else
      var first := list.value[0];
      Join([PiStatusPreamble] + (if first.Obj? then Map(StatusLine, SortByKey(first.fields)) else []), "\n")
  }

  method FormatPiStatus(p: Value) returns (r: string)
    ensures r == PiStatusText(p)
  {
    if !Truthy(p) {
      return NoPiStatus;
    }
    var list: Option<seq<Value>> := None;
    if p.Obj? {
      var data := Get(p.fields, "data");
      if data.Some? && data.value.Arr? {
        list := Some(data.value.items);
      } else {
        list := Some([p]);
      }
    } else if p.Arr? {
      list := Some(p.items);
    }
    if list.None? || list.value == [] {
      return NoPiStatus;
    }
    var lines := [PiStatusPreamble];
    var first := list.value[0];
    if first.Obj? {
      var sorted := SortByKey(first.fields);
      var i := 0;
      while i < |sorted|
        invariant i <= |sorted|
        invariant lines == [PiStatusPreamble] + Map(StatusLine, sorted[..i])
      {
        MapNext(StatusLine, sorted, i);
        lines := lines + [StatusLine(sorted[i])];
        i := i + 1;
      }
      assert sorted[..i] == sorted;
    }
    return Join(lines, "\n");
  }

  /** The fixed sentence comes out exactly when there is no status record to show. */
  lemma PiStatusSentinel(p: Value)
    ensures PiStatusText(p) == NoPiStatus <==> PiStatusList(p).None? || PiStatusList(p).value == []
  {
    var list := PiStatusList(p);
    if list.Some? && list.value != [] {
      var first := list.value[0];
      var lines := [PiStatusPreamble] + (if first.Obj? then Map(StatusLine, SortByKey(first.fields)) else []);
      JoinFirst(lines, "\n");
      assert Join(lines, "\n")[0] == 'T' != NoPiStatus[0];
    }
  }

  /** Only the first record is shown: whatever follows it in the list changes nothing. */
  lemma PiStatusFirstOnly(x: Value, rest: seq<Value>)
    ensures PiStatusText(Arr([x] + rest)) == PiStatusText(Arr([x]))
  {
  }

  /** A dict carrying a "data" list is shown as that list. */
  lemma PiStatusOfDataList(fields: Record, items: seq<Value>)
    requires Get(fields, "data") == Some(Arr(items))
    ensures PiStatusText(Obj(fields)) == PiStatusText(Arr(items))
  {
    assert PiStatusList(Obj(fields)) == Some(items);
    assert items != [] ==> PiStatusList(Arr(items)) == Some(items);
  }

  /** A non-empty dict without a "data" list is shown as the one record it is. */
  lemma PiStatusOfRecord(fields: Record)
    requires fields != [] && !(Get(fields, "data").Some? && Get(fields, "data").value.Arr?)
    ensures PiStatusText(Obj(fields)) == PiStatusText(Arr([Obj(fields)]))
  {
    assert PiStatusList(Obj(fields)) == Some([Obj(fields)]) == PiStatusList(Arr([Obj(fields)]));
  }

  /** The shown record's lines: one `key = value` line per pair, in key order. */
  lemma PiStatusLines(fields: Record, rest: seq<Value>)
    ensures var sorted := SortByKey(fields);
      var lines := Map(StatusLine, sorted);
      && PiStatusText(Arr([Obj(fields)] + rest)) == Join([PiStatusPreamble] + lines, "\n")
      && |lines| == |fields|
      && multiset(sorted) == multiset(fields)
      && (forall i, j :: 0 <= i <= j < |sorted| ==> StrLe(sorted[i].0, sorted[j].0))
      && (forall i :: 0 <= i < |sorted| ==> lines[i] == sorted[i].0 + " = " + Show(sorted[i].1))
  {
    var sorted := SortByKey(fields);
    MapElements(StatusLine, sorted);
    forall i, j | 0 <= i <= j < |sorted| ensures StrLe(sorted[i].0, sorted[j].0) {
      SortedPairwise(sorted, i, j);
    }
  }

  // ---------------------------------------------------------------------------
  // PROMPT_FORMAT_CONSTANTS and format_pi_analysis_input

  const PromptBegin: string := "===> Prompt:"
  const PromptEnd: string := "===> End Prompt."

  /** Python's `bool(prompt)` for an optional string. */
  predicate PromptGiven(prompt: Option<string>) {
    prompt.Some? && prompt.value != ""
  }

  /** A transcript given as text is used as it is; anything else goes through format_transcript. */
  function TranscriptSection(transcript: Value): string {
    if transcript.Str? then transcript.s else TranscriptText(transcript, TranscriptLabel)
  }

  /** The lines before the burndown section: header, transcript section if asked for, PI status. */
  function PiAnalysisHead(transcript: Value, status: Value, header: string, withTranscript: bool): seq<string> {
    ["===" + header + "==="]
      + (if withTranscript then ["-- Latest Transcript --", TranscriptSection(transcript), ""] else [])
      + ["-- PI status for current date --", PiStatusText(status), ""]
  }

  /** The burndown section and the prompt after the given lines, joined; a raised table raises. */
  function PiAnalysisTail(head: seq<string>, burndown: Result<string>, prompt: Option<string>): Result<string> {
    if burndown.Raised? then Raised(burndown.reason)
    else Ok(Join(head + ["-- PI Burndown Snapshot --", burndown.value, ""]
                 + (if PromptGiven(prompt) then [prompt.value] else []), "\n"))
  }

  /** format_pi_analysis_input; it raises only when the burndown table does. */
  function PiAnalysisText(transcript: Value, status: Value, burndown: Value, prompt: Option<string>,
                          header: string, withTranscript: bool): Result<string> {
    PiAnalysisTail(PiAnalysisHead(transcript, status, header, withTranscript), BurndownText(burndown), prompt)
  }

  method FormatPiAnalysisInput(transcript: Value, status: Value, burndown: Value, prompt: Option<string>,
                               header: string, withTranscript: bool) returns (r: Result<string>)
    ensures r == PiAnalysisText(transcript, status, burndown, prompt, header, withTranscript)
  {
    var parts := ["===" + header + "==="];
    if withTranscript {
      var t: string;
      if transcript.Str? {
        t := transcript.s;
      } else {
        t := FormatTranscript(transcript, TranscriptLabel);
      }
      parts := parts + ["-- Latest Transcript --", t, ""];
    }
    var s := FormatPiStatus(status);
    parts := parts + ["-- PI status for current date --", s, ""];
    assert parts == PiAnalysisHead(transcript, status, header, withTranscript);
    var b := FormatBurndown(burndown);
    r := AddBurndownSection(parts, b, prompt);
  }

  /** The last appends: the burndown section, then the prompt when one is given. */
  method AddBurndownSection(head: seq<string>, burndown: Result<string>, prompt: Option<string>) returns (r: Result<string>)
    ensures r == PiAnalysisTail(head, burndown, prompt)
  {
    if burndown.Raised? {
      return Raised(burndown.reason);
    }
    var parts := head + ["-- PI Burndown Snapshot --", burndown.value, ""];
    if PromptGiven(prompt) {
      parts := parts + [prompt.value];
    } else {
      assert parts == parts + [];
    }
    return Ok(Join(parts, "\n"));
  }

  /**
    The layout: the header line comes first, followed by the transcript section when it is
    asked for and by the status section otherwise; the text ends with the prompt when one is
    given, and with the blank line closing the burndown section when not.
  */
  lemma PiAnalysisLayout(transcript: Value, status: Value, burndown: Value, prompt: Option<string>,
                         header: string, withTranscript: bool)
    requires PiAnalysisText(transcript, status, burndown, prompt, header, withTranscript).Ok?
    ensures var r := PiAnalysisText(transcript, status, burndown, prompt, header, withTranscript).value;
      && StartsWith(r, "===" + header + "===" + "\n"
           + (if withTranscript then "-- Latest Transcript --" else "-- PI status for current date --"))
      && (PromptGiven(prompt) ==> EndsWith(r, "\n" + prompt.value))
      && (!PromptGiven(prompt) ==> EndsWith(r, "\n"))
  {
    var head := PiAnalysisHead(transcript, status, header, withTranscript);
    var b := BurndownText(burndown).value;
    var tail := if PromptGiven(prompt) then [prompt.value] else [];
    var parts := head + ["-- PI Burndown Snapshot --", b, ""] + tail;
    var second := if withTranscript then "-- Latest Transcript --" else "-- PI status for current date --";
    var r := Join(parts, "\n");
    assert StartsWith(r, "===" + header + "===" + "\n" + second) by {
      assert parts == ["===" + header + "===", second] + parts[2..];
      JoinStartsTwo("===" + header + "===", second, parts[2..], "\n");
    }
    assert EndsWith(r, "\n" + parts[|parts| - 1]) by {
      var init := parts[..|parts| - 1];
      assert parts == init + [parts[|parts| - 1]];
      JoinLastSep(init, parts[|parts| - 1], "\n");
    }
  }
}
