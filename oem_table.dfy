/**
 * The OEM parts-table parser (`_parse_oem_table`, `_parse_oem_table_from_html`,
 * podzamenu_lookup_service.py:238-295, 563-594).
 *
 * Tables arrive already tokenised: the regular-expression scan of the page is
 * not modelled, only what the parser does with the pieces it finds.
 */
module OemTable {
  import opened Text
  import opened Candidates

  /** OEM_HEADERS and NAME_HEADERS: words that mark the OEM and the name column. */
  const OemHeaders: seq<string> := ["oem", "оем"]
  const NameHeaders: seq<string> := ["наименование", "название", "name"]

  const OemLimit: nat := 100
  const NameLimit: nat := 500

  /**
   * One `<table>` of a page.
   * - markup: everything between `<table ...>` and `</table>`, searched for the header words;
   * - headerRow: the plain-text cells of the first row of `<thead>` (of the table when there is none);
   * - hasTbody: whether the table has a `<tbody>`;
   * - bodyRows: the cells, tags removed, of every row of `<tbody>` (of the whole table when there is none).
   */
  datatype Table = Table(markup: string, headerRow: seq<string>, hasTbody: bool, bodyRows: seq<seq<string>>)

  /** Each header cell stripped and lower-cased. */
  function HeaderCells(raw: seq<string>): seq<string> {
    seq(|raw|, i requires 0 <= i < |raw| => Lower(Trim(raw[i])))
  }

  /** `next((i for i, c in enumerate(cells) if any(h in c for h in terms)), -1)`. */
  function FirstMatching(cells: seq<string>, terms: seq<string>): (r: int)
    ensures -1 <= r < |cells|
    ensures r >= 0 ==> ContainsAny(cells[r], terms)
    ensures forall j :: 0 <= j < |cells| && (r < 0 || j < r) ==> !ContainsAny(cells[j], terms)
  {
    if cells == [] then -1
    else if ContainsAny(cells[0], terms) then 0
    else
      var k := FirstMatching(cells[1..], terms);
      if k < 0 then -1 else k + 1
  }

  predicate HasHeaderWords(t: Table) {
    ContainsAny(Lower(t.markup), OemHeaders) && ContainsAny(Lower(t.markup), NameHeaders)
  }

  function OemIndex(t: Table): int {
    FirstMatching(HeaderCells(t.headerRow), OemHeaders)
  }

  function NameIndex(t: Table): int {
    FirstMatching(HeaderCells(t.headerRow), NameHeaders)
  }

  /**
   * The `(oem, name)` pair of one row: the two cells stripped and truncated.
   * The parsers strip every cell when they read the row and strip these two
   * again; the second strip changes nothing (`Text.TrimIdempotent`).
   */
  function CellPair(raw: seq<string>, oi: nat, ni: nat): Candidate
    requires oi < |raw| && ni < |raw|
  {
    Candidate(Take(Trim(raw[oi]), OemLimit), Take(Trim(raw[ni]), NameLimit))
  }

  predicate Blank(c: Candidate) {
    c.oem == [] && c.name == []
  }

  /**
   * The pair body row `k` yields, if it is a data row holding both cells;
   * with `dropBlank` (the `if oem or name` test of `_parse_oem_table`) a pair
   * whose two cells are empty is skipped.
   */
  function RowPair(t: Table, oi: nat, ni: nat, dropBlank: bool, k: nat): seq<Candidate>
    requires k < |t.bodyRows|
  {
    if !t.hasTbody && k == 0 then []
    else
      var raw := t.bodyRows[k];
      if |raw| > oi && |raw| > ni && !(dropBlank && Blank(CellPair(raw, oi, ni)))
      then [CellPair(raw, oi, ni)]
      else []
  }

  /** The pairs the first `n` body rows yield, in row order. */
  function RowsUpTo(t: Table, oi: nat, ni: nat, dropBlank: bool, n: nat): seq<Candidate>
    requires n <= |t.bodyRows|
  {
    if n == 0 then [] else RowsUpTo(t, oi, ni, dropBlank, n - 1) + RowPair(t, oi, ni, dropBlank, n - 1)
  }

  /** The pairs one table yields: none unless it names both columns. */
  function ParsedRows(t: Table, dropBlank: bool): seq<Candidate> {
    if !HasHeaderWords(t) then []
    else
      var oi := OemIndex(t);
      var ni := NameIndex(t);
      if oi < 0 || ni < 0 then [] else RowsUpTo(t, oi, ni, dropBlank, |t.bodyRows|)
  }

  /** The rows `_parse_oem_table_from_html` returns for one table, blank ones included. */
  function SingleTableRows(t: Table): seq<Candidate> {
    ParsedRows(t, false)
  }

  /** The rows `_parse_oem_table` takes from one table, blank ones skipped. */
  function TableRows(t: Table): seq<Candidate> {
    ParsedRows(t, true)
  }

  /** The first non-empty list of rows, or `[]` when there is none. */
  function FirstNonEmpty(rs: seq<seq<Candidate>>): seq<Candidate> {
    if rs == [] then []
    else if rs[0] != [] then rs[0]
    else FirstNonEmpty(rs[1..])
  }

  /** What each table of a page yields to `_parse_oem_table`, in page order. */
  function PerTableRows(tables: seq<Table>): (rs: seq<seq<Candidate>>)
    ensures |rs| == |tables|
    ensures forall i :: 0 <= i < |tables| ==> rs[i] == TableRows(tables[i])
  {
    if tables == [] then [] else [TableRows(tables[0])] + PerTableRows(tables[1..])
  }

  /** `_parse_oem_table`: the rows of the first table that yields any. */
  function OemTableRows(tables: seq<Table>): seq<Candidate> {
    FirstNonEmpty(PerTableRows(tables))
  }

  predicate Bounded(c: Candidate) {
    |c.oem| <= OemLimit && |c.name| <= NameLimit
  }

  // ---------------------------------------------------------------------------
  // Properties
  // ---------------------------------------------------------------------------

  /** Row by row, `_parse_oem_table` keeps what the other parser reads unless it is blank. */
  lemma RowPairDropsBlanks(t: Table, oi: nat, ni: nat, k: nat)
    requires k < |t.bodyRows|
    ensures var r := RowPair(t, oi, ni, false, k);
      RowPair(t, oi, ni, true, k) == if r != [] && Blank(r[0]) then [] else r
  {
  }

  lemma {:induction false} RowsUpToDropsBlanks(t: Table, oi: nat, ni: nat, n: nat)
    requires n <= |t.bodyRows|
    ensures forall c :: c in RowsUpTo(t, oi, ni, true, n) <==> c in RowsUpTo(t, oi, ni, false, n) && !Blank(c)
  {
    if n > 0 {
      RowsUpToDropsBlanks(t, oi, ni, n - 1);
      RowPairDropsBlanks(t, oi, ni, n - 1);
    }
  }

  /** The two parsers read a table alike; `_parse_oem_table` only drops the blank pairs. */
  lemma TableRowsDropsBlanks(t: Table)
    ensures forall c :: c in TableRows(t) <==> c in SingleTableRows(t) && !Blank(c)
  {
    if HasHeaderWords(t) && OemIndex(t) >= 0 && NameIndex(t) >= 0 {
      RowsUpToDropsBlanks(t, OemIndex(t), NameIndex(t), |t.bodyRows|);
    }
  }

  lemma RowPairBounded(t: Table, oi: nat, ni: nat, drop: bool, k: nat)
    requires k < |t.bodyRows|
    ensures forall c :: c in RowPair(t, oi, ni, drop, k) ==> Bounded(c) && (drop ==> !Blank(c))
  {
  }

  lemma {:induction false} RowsUpToBounded(t: Table, oi: nat, ni: nat, drop: bool, n: nat)
    requires n <= |t.bodyRows|
    ensures forall c :: c in RowsUpTo(t, oi, ni, drop, n) ==> Bounded(c) && (drop ==> !Blank(c))
  {
    if n > 0 {
      RowsUpToBounded(t, oi, ni, drop, n - 1);
      RowPairBounded(t, oi, ni, drop, n - 1);
    }
  }

  /**
   * Every pair a table yields has an OEM of at most 100 and a name of at most
   * 500 characters; with `drop` none of them is blank.
   */
  lemma ParsedRowsBounded(t: Table, drop: bool)
    ensures forall c :: c in ParsedRows(t, drop) ==> Bounded(c) && (drop ==> !Blank(c))
  {
    if HasHeaderWords(t) && OemIndex(t) >= 0 && NameIndex(t) >= 0 {
      RowsUpToBounded(t, OemIndex(t), NameIndex(t), drop, |t.bodyRows|);
    }
  }

  /** Body row `k` is a data row with both cells, and `c` is the pair read from them. */
  predicate ReadFromRow(t: Table, oi: nat, ni: nat, k: nat, c: Candidate) {
    k < |t.bodyRows| && (t.hasTbody || k > 0) && oi < |t.bodyRows[k]| && ni < |t.bodyRows[k]|
    && c == CellPair(t.bodyRows[k], oi, ni)
  }

  lemma RowPairFrom(t: Table, oi: nat, ni: nat, drop: bool, k: nat, c: Candidate)
    requires k < |t.bodyRows|
    requires c in RowPair(t, oi, ni, drop, k)
    ensures ReadFromRow(t, oi, ni, k, c)
  {
  }

  lemma {:induction false} RowsUpToFrom(t: Table, oi: nat, ni: nat, drop: bool, n: nat, c: Candidate)
    requires n <= |t.bodyRows|
    requires c in RowsUpTo(t, oi, ni, drop, n)
    ensures exists k :: 0 <= k < n && ReadFromRow(t, oi, ni, k, c)
  {
    var prev := RowsUpTo(t, oi, ni, drop, n - 1);
    if c !in prev {
      RowPairFrom(t, oi, ni, drop, n - 1, c);
      assert ReadFromRow(t, oi, ni, n - 1, c);
    } else {
      RowsUpToFrom(t, oi, ni, drop, n - 1, c);
      var k :| 0 <= k < n - 1 && ReadFromRow(t, oi, ni, k, c);
      assert 0 <= k < n;
    }
  }

  /**
   * Where a pair comes from: a table that mentions both header words and has a
   * matching OEM and name header cell; a body row other than the header row
   * (the first row when there is no tbody); the cells under those two headers.
   */
  lemma ParsedRowFrom(t: Table, drop: bool, c: Candidate)
    requires c in ParsedRows(t, drop)
    ensures HasHeaderWords(t) && OemIndex(t) >= 0 && NameIndex(t) >= 0
    ensures ContainsAny(HeaderCells(t.headerRow)[OemIndex(t)], OemHeaders)
    ensures ContainsAny(HeaderCells(t.headerRow)[NameIndex(t)], NameHeaders)
    ensures exists k :: 0 <= k < |t.bodyRows| && ReadFromRow(t, OemIndex(t), NameIndex(t), k, c)
  {
    RowsUpToFrom(t, OemIndex(t), NameIndex(t), drop, |t.bodyRows|, c);
  }

  /** A data row with both cells, not dropped as blank, yields its pair right after the pairs of the rows before it. */
  lemma {:induction false} RowsUpToHas(t: Table, oi: nat, ni: nat, drop: bool, n: nat, k: nat)
    requires k < n <= |t.bodyRows|
    requires (t.hasTbody || k > 0) && oi < |t.bodyRows[k]| && ni < |t.bodyRows[k]|
    requires !(drop && Blank(CellPair(t.bodyRows[k], oi, ni)))
    ensures RowsUpTo(t, oi, ni, drop, k) + [CellPair(t.bodyRows[k], oi, ni)] <= RowsUpTo(t, oi, ni, drop, n)
  {
    if n > k + 1 {
      RowsUpToHas(t, oi, ni, drop, n - 1, k);
    }
  }

  /**
   * Every body row other than the skipped header row that holds both cells
   * is read, unless `drop` skips it as blank, and the pairs keep row order.
   */
  lemma ParsedRowHas(t: Table, drop: bool, k: nat)
    requires HasHeaderWords(t) && OemIndex(t) >= 0 && NameIndex(t) >= 0
    requires k < |t.bodyRows| && (t.hasTbody || k > 0)
    requires OemIndex(t) < |t.bodyRows[k]| && NameIndex(t) < |t.bodyRows[k]|
    requires !(drop && Blank(CellPair(t.bodyRows[k], OemIndex(t), NameIndex(t))))
    ensures RowsUpTo(t, OemIndex(t), NameIndex(t), drop, k) + [CellPair(t.bodyRows[k], OemIndex(t), NameIndex(t))]
      <= ParsedRows(t, drop)
    ensures CellPair(t.bodyRows[k], OemIndex(t), NameIndex(t)) in ParsedRows(t, drop)
  {
    var c := CellPair(t.bodyRows[k], OemIndex(t), NameIndex(t));
    var before := RowsUpTo(t, OemIndex(t), NameIndex(t), drop, k);
    RowsUpToHas(t, OemIndex(t), NameIndex(t), drop, |t.bodyRows|, k);
    assert ParsedRows(t, drop)[|before|] == (before + [c])[|before|] == c;
  }

  lemma {:induction false} RowsUpToShift(t: Table, oi: nat, ni: nat, drop: bool, n: nat)
    requires !t.hasTbody && 1 <= n <= |t.bodyRows|
    ensures RowsUpTo(t, oi, ni, drop, n)
      == RowsUpTo(t.(hasTbody := true, bodyRows := t.bodyRows[1..]), oi, ni, drop, n - 1)
  {
    var t' := t.(hasTbody := true, bodyRows := t.bodyRows[1..]);
    if n > 1 {
      RowsUpToShift(t, oi, ni, drop, n - 1);
      assert RowPair(t, oi, ni, drop, n - 1) == RowPair(t', oi, ni, drop, n - 2);
    }
  }

  /**
   * Without a tbody the first row is the header: the table yields what it
   * would yield if its remaining rows formed its tbody.
   */
  lemma NoTbodySkipsHeaderRow(t: Table, drop: bool)
    requires !t.hasTbody && |t.bodyRows| > 0
    ensures ParsedRows(t, drop) == ParsedRows(t.(hasTbody := true, bodyRows := t.bodyRows[1..]), drop)
  {
    var t' := t.(hasTbody := true, bodyRows := t.bodyRows[1..]);
    assert HasHeaderWords(t') == HasHeaderWords(t);
    assert OemIndex(t') == OemIndex(t) && NameIndex(t') == NameIndex(t);
    if HasHeaderWords(t) && OemIndex(t) >= 0 && NameIndex(t) >= 0 {
      RowsUpToShift(t, OemIndex(t), NameIndex(t), drop, |t.bodyRows|);
    }
  }

  lemma {:induction false} FirstNonEmptyIsFirst(rs: seq<seq<Candidate>>)
    ensures FirstNonEmpty(rs) == [] <==> forall k :: 0 <= k < |rs| ==> rs[k] == []
    ensures FirstNonEmpty(rs) != [] ==>
      exists k :: 0 <= k < |rs| && FirstNonEmpty(rs) == rs[k] && forall j :: 0 <= j < k ==> rs[j] == []
  {
    if rs != [] && rs[0] == [] {
      var rest := rs[1..];
      FirstNonEmptyIsFirst(rest);
      assert forall k :: 0 <= k < |rest| ==> rest[k] == rs[k + 1];
      if FirstNonEmpty(rest) != [] {
        var k :| 0 <= k < |rest| && FirstNonEmpty(rest) == rest[k] && forall j :: 0 <= j < k ==> rest[j] == [];
        assert FirstNonEmpty(rs) == rs[k + 1];
        assert forall j :: 0 <= j < k + 1 ==> rs[j] == [] by {
          forall j | 0 <= j < k + 1 ensures rs[j] == [] {
            if j > 0 { assert rs[j] == rest[j - 1]; }
          }
        }
      }
    }
  }

  /** Only the first table that yields rows contributes; the later ones are never read. */
  lemma OemTableRowsFirstTable(tables: seq<Table>)
    ensures OemTableRows(tables) == [] <==> forall k :: 0 <= k < |tables| ==> TableRows(tables[k]) == []
    ensures OemTableRows(tables) != [] ==>
      exists k :: 0 <= k < |tables| && OemTableRows(tables) == TableRows(tables[k])
        && forall j :: 0 <= j < k ==> TableRows(tables[j]) == []
  {
    FirstNonEmptyIsFirst(PerTableRows(tables));
  }

  /** Every row `_parse_oem_table` returns is bounded and not blank. */
  lemma OemTableRowsBounded(tables: seq<Table>)
    ensures forall c :: c in OemTableRows(tables) ==> Bounded(c) && !Blank(c)
  {
    OemTableRowsFirstTable(tables);
    if OemTableRows(tables) != [] {
      var k :| 0 <= k < |tables| && OemTableRows(tables) == TableRows(tables[k])
        && forall j :: 0 <= j < k ==> TableRows(tables[j]) == [];
      ParsedRowsBounded(tables[k], true);
    }
  }

  // ---------------------------------------------------------------------------
  // The parsers
  // ---------------------------------------------------------------------------

  /** `header_cells.append(m.group(1).strip().lower())` for every header cell. */
  method ReadHeaderCells(raw: seq<string>) returns (cells: seq<string>)
    ensures cells == HeaderCells(raw)
  {
    cells := [];
    for i := 0 to |raw|
      invariant |cells| == i
      invariant forall m :: 0 <= m < i ==> cells[m] == Lower(Trim(raw[m]))
    {
      cells := cells + [Lower(Trim(raw[i]))];
    }
  }

  /** `cells.append(re.sub(r"<[^>]+>", "", td).strip())` for every cell of a row. */
  method ReadRowCells(raw: seq<string>) returns (cells: seq<string>)
    ensures |cells| == |raw|
    ensures forall m :: 0 <= m < |raw| ==> cells[m] == Trim(raw[m])
  {
    cells := [];
    for i := 0 to |raw|
      invariant |cells| == i
      invariant forall m :: 0 <= m < i ==> cells[m] == Trim(raw[m])
    {
      cells := cells + [Trim(raw[i])];
    }
  }

  /**
   * One data row: its cells with tags removed and stripped, then the pair if
   * both cells are there and, with `dropBlank`, not both empty.
   */
  method ReadRow(t: Table, oi: nat, ni: nat, dropBlank: bool, idx: nat) returns (keep: bool, c: Candidate)
    requires idx < |t.bodyRows| && (t.hasTbody || idx > 0)
    ensures RowPair(t, oi, ni, dropBlank, idx) == if keep then [c] else []
  {
    var cells := ReadRowCells(t.bodyRows[idx]);
    keep := false;
    c := Candidate([], []);
    if |cells| > oi && |cells| > ni {
      TrimIdempotent(t.bodyRows[idx][oi]);
      TrimIdempotent(t.bodyRows[idx][ni]);
      var oem := Take(Trim(cells[oi]), OemLimit);
      var name := Take(Trim(cells[ni]), NameLimit);
      c := Candidate(oem, name);
      keep := !dropBlank || oem != [] || name != [];
    }
  }

  /** The row loop both parsers share: the pairs of the body rows, in order. */
  method ReadPairs(t: Table, oi: nat, ni: nat, dropBlank: bool) returns (rows: seq<Candidate>)
    ensures rows == RowsUpTo(t, oi, ni, dropBlank, |t.bodyRows|)
  {
    rows := [];
    for idx := 0 to |t.bodyRows|
      invariant rows == RowsUpTo(t, oi, ni, dropBlank, idx)
    {
      assert RowsUpTo(t, oi, ni, dropBlank, idx + 1) == rows + RowPair(t, oi, ni, dropBlank, idx);
      if !t.hasTbody && idx == 0 {
        // without a tbody the first row is the header row
        assert rows + [] == rows;
      } else {
        var keep, c := ReadRow(t, oi, ni, dropBlank, idx);
        if keep {
          rows := rows + [c];
        } else {
          assert rows + [] == rows;
        }
      }
    }
  }

  /**
   * What both parsers do with one table: check the header words, locate the
   * two columns in the header row, read the body rows. Only `_parse_oem_table`
   * (`dropBlank`) gives up early on an empty header row; for the other parser
   * the column lookup fails on it anyway.
   */
  method ReadTable(t: Table, dropBlank: bool) returns (rows: seq<Candidate>)
    ensures rows == ParsedRows(t, dropBlank)
  {
    rows := [];
    var hasOem := ContainsAny(Lower(t.markup), OemHeaders);
    var hasName := ContainsAny(Lower(t.markup), NameHeaders);
    if !(hasOem && hasName) {
      return;
    }
    var headerCells := ReadHeaderCells(t.headerRow);
    if dropBlank && headerCells == [] {
      return;
    }
    var oi := FirstMatching(headerCells, OemHeaders);
    var ni := FirstMatching(headerCells, NameHeaders);
    if oi < 0 || ni < 0 {
      return;
    }
    rows := ReadPairs(t, oi, ni, dropBlank);
  }

  /** `_parse_oem_table_from_html`: the pairs of a single table, blank ones included. */
  method ParseOemTableFromHtml(t: Table) returns (rows: seq<Candidate>)
    ensures rows == SingleTableRows(t)
    ensures forall c :: c in rows ==> Bounded(c)
  {
    ParsedRowsBounded(t, false);
    rows := ReadTable(t, false);
  }

  /** `_parse_oem_table`: the non-blank pairs of the first table that yields any. */
  method ParseOemTable(tables: seq<Table>) returns (rows: seq<Candidate>)
    ensures rows == OemTableRows(tables)
    ensures forall c :: c in rows ==> Bounded(c) && !Blank(c)
  {
    OemTableRowsBounded(tables);
    ghost var rs := PerTableRows(tables);
    rows := [];
    var ti := 0;
    while ti < |tables|
      invariant 0 <= ti <= |tables|
      invariant rows == []
      invariant OemTableRows(tables) == FirstNonEmpty(rs[ti..])
    {
      assert rs[ti..][0] == TableRows(tables[ti]) && rs[ti..][1..] == rs[ti + 1..];
      rows := ReadTable(tables[ti], true);
      if rows != [] {
        return;
      }
      ti := ti + 1;
    }
  }
}
