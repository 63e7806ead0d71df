/**
 * The CSV text that `exportToCsv` builds: the union of all records' keys in
 * first-seen order as an unquoted header line, then one line per record in
 * which every cell is wrapped in double quotes with embedded quotes doubled
 * (the escaping rule of section 2, rule 7, of RFC 4180). A reader for that
 * text is the partner: reading the export back gives the keys and every
 * record's values.
 */
module CsvExport {
  import opened Wrappers
  import opened Text

  /** A record: its own entries as `Object.keys` lists them, with string values. */
  type Record = seq<(string, string)>

  // ---------------------------------------------------------------------
  // The header keys

  /** `Object.keys(obj)`. */
  function EntryKeys(r: Record): (ks: seq<string>)
    ensures |ks| == |r| && forall i :: 0 <= i < |r| ==> ks[i] == r[i].0
  {
    seq(|r|, i requires 0 <= i < |r| => r[i].0)
  }

  /** `data.flatMap((obj) => Object.keys(obj))`. */
  function AllKeys(data: seq<Record>): seq<string> {
    if |data| == 0 then [] else AllKeys(data[..|data| - 1]) + EntryKeys(data[|data| - 1])
  }

  /** `Array.from(new Set(s))`: the first occurrence of each element, in order. */
  function Dedup(s: seq<string>): seq<string> {
    if |s| == 0 then []
    else
      var d := Dedup(s[..|s| - 1]);
      if s[|s| - 1] in d then d else d + [s[|s| - 1]]
  }

  function CsvKeys(data: seq<Record>): seq<string> {
    Dedup(AllKeys(data))
  }

  predicate Distinct(s: seq<string>) {
    forall i, j :: 0 <= i < j < |s| ==> s[i] != s[j]
  }

  /** The union has no repeated key. */
  lemma {:induction false} DedupDistinct(s: seq<string>)
    ensures Distinct(Dedup(s))
  {
    if |s| > 0 {
      DedupDistinct(s[..|s| - 1]);
    }
  }

  /** The union holds exactly the keys that occur somewhere. */
  lemma {:induction false} DedupMember(s: seq<string>, x: string)
    ensures x in Dedup(s) <==> x in s
  {
    if |s| > 0 {
      var n := |s| - 1;
      DedupMember(s[..n], x);
      assert s == s[..n] + [s[n]];
    }
  }

  /**
   * First-seen order: the union of any prefix of the keys is a prefix of the
   * union of all of them, so a key that occurs earlier comes earlier.
   */
  lemma {:induction false} DedupPrefix(s: seq<string>, k: nat)
    requires k <= |s|
    ensures var d, dk := Dedup(s), Dedup(s[..k]); |dk| <= |d| && d[..|dk|] == dk
  {
    if k < |s| {
      var n := |s| - 1;
      DedupPrefix(s[..n], k);
      assert s[..n][..k] == s[..k];
    } else {
      assert s[..k] == s;
    }
  }

  /** Keys that are already distinct are kept as they are. */
  lemma {:induction false} DedupOfDistinct(s: seq<string>)
    requires Distinct(s)
    ensures Dedup(s) == s
  {
    if |s| > 0 {
      var n := |s| - 1;
      DedupOfDistinct(s[..n]);
      assert s[n] !in s[..n];
      assert s[..n] + [s[n]] == s;
    }
  }

  /** Keys that were all seen before add nothing to the union. */
  lemma {:induction false} DedupCovered(s: seq<string>, t: seq<string>)
    requires forall x :: x in t ==> x in s
    ensures Dedup(s + t) == Dedup(s)
  {
    if |t| == 0 {
      assert s + t == s;
    } else {
      var n := |t| - 1;
      assert forall x :: x in t[..n] ==> x in t;
      DedupCovered(s, t[..n]);
      var st := s + t;
      assert st[..|st| - 1] == s + t[..n];
      assert st[|st| - 1] == t[n] && t[n] in t;
      DedupMember(s, t[n]);
      assert t[n] in Dedup(st[..|st| - 1]);
    }
  }

  /** When every record has the same distinct keys `ks`, the header keys are `ks`. */
  lemma {:induction false} UniformKeys(data: seq<Record>, ks: seq<string>)
    requires |data| > 0 && Distinct(ks)
    requires forall i :: 0 <= i < |data| ==> EntryKeys(data[i]) == ks
    ensures CsvKeys(data) == ks
  {
    if |data| == 1 {
      assert AllKeys(data[..0]) == [];
      assert AllKeys(data) == AllKeys(data[..0]) + ks;
      assert [] + ks == ks;
      DedupOfDistinct(ks);
    } else {
      var n := |data| - 1;
      UniformKeys(data[..n], ks);
      assert AllKeys(data) == AllKeys(data[..n]) + ks;
      forall x | x in ks ensures x in AllKeys(data[..n]) {
        DedupMember(AllKeys(data[..n]), x);
      }
      DedupCovered(AllKeys(data[..n]), ks);
    }
  }

  // ---------------------------------------------------------------------
  // Cells, rows and the whole text

  /** `obj[key]`: the value of the first entry with that key, if any. */
  function Lookup(r: Record, key: string): Option<string> {
    if |r| == 0 then None else if r[0].0 == key then Some(r[0].1) else Lookup(r[1..], key)
  }

  /** `obj[key] !== undefined ? obj[key] : ""`. */
  function CellValue(r: Record, key: string): string {
    match Lookup(r, key)
    case Some(v) => v
    case None => ""
  }

  /** `replace(/"/g, '""')`. */
  function DoubleQuotes(v: string): string {
    if |v| == 0 then "" else (if v[0] == '"' then "\"\"" else [v[0]]) + DoubleQuotes(v[1..])
  }

  /** A cell: the value with its quotes doubled, between double quotes. */
  function Cell(v: string): string {
    "\"" + DoubleQuotes(v) + "\""
  }

  /** A record's cells, one per header key in header order. */
  function RowCells(keys: seq<string>, r: Record): (cells: seq<string>)
    ensures |cells| == |keys|
  {
    seq(|keys|, j requires 0 <= j < |keys| => Cell(CellValue(r, keys[j])))
  }

  function RowLine(keys: seq<string>, r: Record): string {
    Join(RowCells(keys, r), ",") + "\n"
  }

  function RowsText(keys: seq<string>, data: seq<Record>): string {
    if |data| == 0 then "" else RowLine(keys, data[0]) + RowsText(keys, data[1..])
  }

  function HeaderLine(keys: seq<string>): string {
    Join(keys, ",") + "\n"
  }

  /** The whole CSV text. */
  function CsvText(data: seq<Record>): string {
    var keys := CsvKeys(data);
    HeaderLine(keys) + RowsText(keys, data)
  }

  lemma {:induction false} RowsTextSnoc(keys: seq<string>, data: seq<Record>, r: Record)
    ensures RowsText(keys, data + [r]) == RowsText(keys, data) + RowLine(keys, r)
  {
    if |data| == 0 {
      assert RowsText(keys, [r]) == RowLine(keys, r) + RowsText(keys, []);
    } else {
      assert (data + [r])[1..] == data[1..] + [r];
      RowsTextSnoc(keys, data[1..], r);
    }
  }

  /** A key a record lacks gives the empty quoted cell. */
  lemma MissingKeyCell(keys: seq<string>, r: Record, j: nat)
    requires j < |keys| && Lookup(r, keys[j]).None?
    ensures RowCells(keys, r)[j] == "\"\""
  {
  }

  /** No records: no keys, and the text is a lone line break. */
  lemma EmptyExport()
    ensures CsvText([]) == "\n"
  {
  }

  // ---------------------------------------------------------------------
  // The export as the source builds it

  /** `Array.from(new Set(data.flatMap((obj) => Object.keys(obj))))`, through a set of keys seen. */
  method CollectKeys(data: seq<Record>) returns (keys: seq<string>)
    ensures keys == CsvKeys(data)
  {
    keys := [];
    var seen: set<string> := {};
    var i := 0;
    while i < |data|
      invariant 0 <= i <= |data|
      invariant keys == Dedup(AllKeys(data[..i]))
      invariant forall k :: k in seen <==> k in keys
    {
      var obj := data[i];
      ghost var before := AllKeys(data[..i]);
      assert before + EntryKeys(obj)[..0] == before;
      var j := 0;
      while j < |obj|
        invariant 0 <= j <= |obj|
        invariant keys == Dedup(before + EntryKeys(obj)[..j])
        invariant forall k :: k in seen <==> k in keys
      {
        var key := obj[j].0;
        DedupStep(before, EntryKeys(obj), j);
        if key !in seen {
          keys := keys + [key];
          seen := seen + {key};
        }
        j := j + 1;
      }
      AllKeysStep(data, i);
      i := i + 1;
    }
    assert data[..|data|] == data;
  }

  /** One more key seen: it joins the union unless it is already there. */
  lemma DedupStep(before: seq<string>, ks: seq<string>, j: nat)
    requires j < |ks|
    ensures var d := Dedup(before + ks[..j]);
      Dedup(before + ks[..j + 1]) == if ks[j] in d then d else d + [ks[j]]
  {
    var t := before + ks[..j + 1];
    assert t[..|t| - 1] == before + ks[..j];
    assert t[|t| - 1] == ks[j];
  }

  /** One more record: its keys follow those of the records before it. */
  lemma AllKeysStep(data: seq<Record>, i: nat)
    requires i < |data|
    ensures AllKeys(data[..i + 1]) == AllKeys(data[..i]) + EntryKeys(data[i])[..|data[i]|]
  {
    assert data[..i + 1][..i] == data[..i];
    assert EntryKeys(data[i])[..|data[i]|] == EntryKeys(data[i]);
  }

  /** `keys.map(...)`: one quoted, escaped cell per key. */
  method BuildRow(keys: seq<string>, obj: Record) returns (row: seq<string>)
    ensures row == RowCells(keys, obj)
  {
    row := [];
    var j := 0;
    while j < |keys|
      invariant 0 <= j <= |keys|
      invariant row == RowCells(keys, obj)[..j]
    {
      var value := match Lookup(obj, keys[j]) case Some(v) => v case None => "";
      row := row + ["\"" + DoubleQuotes(value) + "\""];
      j := j + 1;
    }
  }

  /** The header line, then one line per record appended in order. */
  method BuildCsv(data: seq<Record>) returns (csvContent: string)
    ensures csvContent == CsvText(data)
  {
    var keys := CollectKeys(data);
    csvContent := Join(keys, ",") + "\n";
    var i := 0;
    while i < |data|
      invariant 0 <= i <= |data|
      invariant csvContent == HeaderLine(keys) + RowsText(keys, data[..i])
    {
      var row := BuildRow(keys, data[i]);
      assert data[..i + 1] == data[..i] + [data[i]];
      RowsTextSnoc(keys, data[..i], data[i]);
      csvContent := csvContent + (Join(row, ",") + "\n");
      i := i + 1;
    }
    assert data[..|data|] == data;
  }

  // ---------------------------------------------------------------------
  // Reading the text back

  /** The body of a quoted cell up to its closing quote, with `""` read as `"`. */
  function ParseQuotedBody(s: string): (r: Option<(string, string)>)
    ensures r.Some? ==> |r.value.1| < |s|
  {
    if |s| == 0 then None
    else if s[0] == '"' then
      if |s| > 1 && s[1] == '"' then
        match ParseQuotedBody(s[2..])
        case None => None
        case Some((v, rest)) => Some(("\"" + v, rest))
      else Some(("", s[1..]))
    else
      match ParseQuotedBody(s[1..])
      case None => None
      case Some((v, rest)) => Some(([s[0]] + v, rest))
  }

  /** One quoted cell at the front of `s`: its value and what follows it. */
  function ParseCell(s: string): (r: Option<(string, string)>)
    ensures r.Some? ==> |r.value.1| < |s|
  {
    if |s| > 0 && s[0] == '"' then ParseQuotedBody(s[1..]) else None
  }

  /** Exactly `n` cells separated by commas and ended by a line break. */
  function ParseCells(s: string, n: nat): (r: Option<(seq<string>, string)>)
    ensures r.Some? ==> |r.value.0| == n && |r.value.1| < |s|
    decreases n
  {
    if n == 0 then
      if |s| > 0 && s[0] == '\n' then Some(([], s[1..])) else None
    else
      match ParseCell(s)
      case None => None
      case Some((v, r)) =>
        if n == 1 then
          if |r| > 0 && r[0] == '\n' then Some(([v], r[1..])) else None
        else if |r| > 0 && r[0] == ',' then
          match ParseCells(r[1..], n - 1)
          case None => None
          case Some((vs, rest)) => Some(([v] + vs, rest))
        else None
  }

  /** Lines of `n` cells until the text ends. */
  function ParseRows(s: string, n: nat): Option<seq<seq<string>>>
    decreases |s|
  {
    if |s| == 0 then Some([])
    else
      match ParseCells(s, n)
      case None => None
      case Some((row, rest)) =>
        match ParseRows(rest, n)
        case None => None
        case Some(rows) => Some([row] + rows)
  }

  /** The header's keys and the rows' cell values. */
  function ParseCsv(s: string): Option<(seq<string>, seq<seq<string>>)> {
    var k := FirstIndex(s, '\n');
    if k == |s| then None
    else
      var line := s[..k];
      var header := if line == "" then [] else Split(line, ',');
      match ParseRows(s[k + 1..], |header|)
      case None => None
      case Some(rows) => Some((header, rows))
  }

  /** Reading a quoted cell back gives its value, whatever non-quote follows. */
  lemma {:induction false} QuotedBodyRoundTrip(v: string, t: string)
    requires |t| == 0 || t[0] != '"'
    ensures ParseQuotedBody(DoubleQuotes(v) + "\"" + t) == Some((v, t))
  {
    var s := DoubleQuotes(v) + "\"" + t;
    if |v| == 0 {
      assert s == "\"" + t;
      assert s[1..] == t;
    } else {
      QuotedBodyRoundTrip(v[1..], t);
      var inner := DoubleQuotes(v[1..]) + "\"" + t;
      if v[0] == '"' {
        assert s == "\"\"" + inner;
        assert s[2..] == inner;
        assert "\"" + v[1..] == v;
      } else {
        assert s == [v[0]] + inner;
        assert s[1..] == inner;
        assert [v[0]] + v[1..] == v;
      }
    }
  }

  lemma CellRoundTrip(v: string, t: string)
    requires |t| == 0 || t[0] != '"'
    ensures ParseCell(Cell(v) + t) == Some((v, t))
  {
    var s := Cell(v) + t;
    assert s[1..] == DoubleQuotes(v) + "\"" + t;
    QuotedBodyRoundTrip(v, t);
  }

  /** A line of quoted cells reads back as the values, leaving what follows the line. */
  lemma {:induction false} CellsRoundTrip(vs: seq<string>, t: string)
    ensures var cells := seq(|vs|, i requires 0 <= i < |vs| => Cell(vs[i]));
      ParseCells(Join(cells, ",") + "\n" + t, |vs|) == Some((vs, t))
  {
    var cells := seq(|vs|, i requires 0 <= i < |vs| => Cell(vs[i]));
    var s := Join(cells, ",") + "\n" + t;
    if |vs| == 0 {
      assert s == "\n" + t;
      assert s[1..] == t;
    } else if |vs| == 1 {
      assert s == Cell(vs[0]) + ("\n" + t);
      CellRoundTrip(vs[0], "\n" + t);
      assert ("\n" + t)[1..] == t;
      assert [vs[0]] == vs;
    } else {
      var tailCells := seq(|vs| - 1, i requires 0 <= i < |vs| - 1 => Cell(vs[1..][i]));
      assert cells[1..] == tailCells;
      var rest := Join(tailCells, ",") + "\n" + t;
      assert s == Cell(vs[0]) + ("," + rest);
      CellRoundTrip(vs[0], "," + rest);
      assert ("," + rest)[1..] == rest;
      CellsRoundTrip(vs[1..], t);
      assert [vs[0]] + vs[1..] == vs;
    }
  }

  /** The values a record contributes, one per header key. */
  function RowValues(keys: seq<string>, r: Record): (vs: seq<string>)
    ensures |vs| == |keys|
  {
    seq(|keys|, j requires 0 <= j < |keys| => CellValue(r, keys[j]))
  }

  function Table(keys: seq<string>, data: seq<Record>): seq<seq<string>> {
    seq(|data|, i requires 0 <= i < |data| => RowValues(keys, data[i]))
  }

  lemma {:induction false} RowsRoundTrip(keys: seq<string>, data: seq<Record>)
    ensures ParseRows(RowsText(keys, data), |keys|) == Some(Table(keys, data))
  {
    if |data| > 0 {
      var vs := RowValues(keys, data[0]);
      var rest := RowsText(keys, data[1..]);
      assert RowCells(keys, data[0]) == seq(|vs|, i requires 0 <= i < |vs| => Cell(vs[i]));
      CellsRoundTrip(vs, rest);
      assert RowsText(keys, data) == Join(RowCells(keys, data[0]), ",") + "\n" + rest;
      RowsRoundTrip(keys, data[1..]);
      assert Table(keys, data) == [vs] + Table(keys, data[1..]);
    }
  }

  /** A key the header can carry: non-empty, without comma or line break. */
  predicate PlainKey(k: string) {
    |k| > 0 && Free(k, ',') && Free(k, '\n')
  }

  predicate PlainKeys(data: seq<Record>) {
    forall i, j :: 0 <= i < |data| && 0 <= j < |data[i]| ==> PlainKey(data[i][j].0)
  }

  lemma {:induction false} AllKeysPlain(data: seq<Record>)
    requires PlainKeys(data)
    ensures forall k :: k in AllKeys(data) ==> PlainKey(k)
  {
    if |data| > 0 {
      var n := |data| - 1;
      AllKeysPlain(data[..n]);
    }
  }

  /**
   * The round trip: when the keys are plain, reading the export back gives
   * the header keys and, for every record in order, its value under each key
   * (the empty string where it has none).
   */
  lemma ExportRoundTrip(data: seq<Record>)
    requires PlainKeys(data)
    ensures ParseCsv(CsvText(data)) == Some((CsvKeys(data), Table(CsvKeys(data), data)))
  {
    var keys := CsvKeys(data);
    AllKeysPlain(data);
    forall k | 0 <= k < |keys| ensures PlainKey(keys[k]) {
      DedupMember(AllKeys(data), keys[k]);
    }
    var line := Join(keys, ",");
    var rest := RowsText(keys, data);
    var s := CsvText(data);
    JoinFree(keys, ",", '\n');
    FirstIndexOfJoin(line, rest, '\n');
    assert s == line + ['\n'] + rest;
    assert s[..|line|] == line;
    assert s[|line| + 1..] == rest;
    if |keys| == 0 {
      assert line == "";
    } else {
      assert |line| > 0 by {
        if |keys| > 1 {
          assert line == keys[0] + "," + Join(keys[1..], ",");
        }
      }
      assert "," == [','];
      SplitJoin(keys, ',');
    }
    RowsRoundTrip(keys, data);
  }

  /** Under distinct keys a record's value is the value of its entry. */
  lemma {:induction false} LookupEntry(r: Record, j: nat)
    requires j < |r| && Distinct(EntryKeys(r))
    ensures Lookup(r, r[j].0) == Some(r[j].1)
  {
    if j > 0 {
      assert EntryKeys(r[1..]) == EntryKeys(r)[1..];
      assert r[0].0 == EntryKeys(r)[0] != EntryKeys(r)[j] == r[j].0;
      LookupEntry(r[1..], j - 1);
    }
  }

  /**
   * Every entry of every record survives the export: its key is a header
   * key, and the read-back row holds its value in that key's column.
   */
  lemma ExportKeepsEntries(data: seq<Record>, i: nat, e: nat)
    requires PlainKeys(data)
    requires i < |data| && e < |data[i]| && Distinct(EntryKeys(data[i]))
    ensures var p := ParseCsv(CsvText(data));
      p.Some? && i < |p.value.1| &&
      (exists j :: 0 <= j < |p.value.0| && j < |p.value.1[i]| &&
         p.value.0[j] == data[i][e].0 && p.value.1[i][j] == data[i][e].1)
  {
    ExportRoundTrip(data);
    var keys := CsvKeys(data);
    var key := data[i][e].0;
    AllKeysIncludes(data, i, e);
    DedupMember(AllKeys(data), key);
    var j :| 0 <= j < |keys| && keys[j] == key;
    LookupEntry(data[i], e);
    assert Table(keys, data)[i][j] == CellValue(data[i], key);
  }

  lemma {:induction false} AllKeysIncludes(data: seq<Record>, i: nat, e: nat)
    requires i < |data| && e < |data[i]|
    ensures data[i][e].0 in AllKeys(data)
  {
    var n := |data| - 1;
    if i < n {
      AllKeysIncludes(data[..n], i, e);
    } else {
      assert EntryKeys(data[n])[e] == data[i][e].0;
    }
  }
}
