/**
 * The prof_rf provider (`_extract_prof_rf_header_oem`, `_parse_prof_rf_blocks`,
 * `_extract_from_prof_rf`, `_do_lookup_prof_rf`,
 * podzamenu_lookup_service.py:503-704): what it returns once the browser has
 * loaded the catalogue page.
 */
module ProfRf {
  import opened Wrappers
  import opened Text
  import opened Candidates
  import opened OemTable
  import opened VehicleMeta
  import opened LookupTypes

  /** The three kinds of section a prof_rf page lists parts under. */
  datatype Block = Original | Analogues | Copies

  /** The section's heading on the page, as `block_headers` spells it. */
  function BlockName(b: Block): string {
    match b
    case Original => "Оригинал"
    case Analogues => "Аналоги"
    case Copies => "Копии"
  }

  /** The test `block_type.lower() == "оригинал"`. */
  predicate IsOriginalBlock(b: Block) {
    Lower(BlockName(b)) == "оригинал"
  }

  /** Only rows of the "Оригинал" sections pass the test. */
  lemma OriginalBlockOnly(b: Block)
    ensures IsOriginalBlock(b) <==> b == Original
  {
    if b == Original {
      var low := Lower(BlockName(b));
      forall i | 0 <= i < |low| ensures low[i] == "оригинал"[i] {
        assert low[i] == LowerChar(BlockName(b)[i]);
      }
    }
  }

  /**
   * One section of the page: the tables between a block heading and the next
   * heading of another kind, with the kind of its own heading.
   */
  datatype Section = Section(block: Block, tables: seq<Table>)

  /**
   * The first match of PROF_RF_HEADER_PATTERN: `prefix` is the stripped
   * "Коробка передач" or "Трансмиссия" and `oem` the 6 to 20 letters and
   * digits after it.
   */
  datatype HeaderHit = HeaderHit(prefix: string, oem: string)

  /** What the header pattern's second group can match: 6 to 20 ASCII letters or digits. */
  predicate HeaderOemShape(oem: string) {
    6 <= |oem| <= 20
    && forall i :: 0 <= i < |oem| ==> ('0' <= oem[i] <= '9' || 'A' <= oem[i] <= 'Z' || 'a' <= oem[i] <= 'z')
  }

  /** `model_text = f"{prefix} {oem}"`. */
  function HeaderModel(h: HeaderHit): string {
    h.prefix + " " + h.oem
  }

  /**
   * What the browser session yields, as the lookup logic sees it.
   * - notFound: the page matches one of PROF_RF_NOT_FOUND_PATTERNS;
   * - metaCaptures: the vehicle-meta captures of the page;
   * - header: the first match of the header pattern, if any;
   * - tables: every table of the page, in page order (for `_parse_oem_table`);
   * - sections: the block sections in the order `_parse_prof_rf_blocks` visits
   *   them (every "Оригинал" match, then every "Аналоги", then every "Копии");
   * - modelHit: what `_extract_model_from_page` reports on the page.
   */
  datatype Page = Page(
    notFound: bool,
    metaCaptures: map<string, string>,
    header: Option<HeaderHit>,
    tables: seq<Table>,
    sections: seq<Section>,
    modelHit: ModelHit)

  // ---------------------------------------------------------------------------
  // Block rows (`_parse_prof_rf_blocks`)
  // ---------------------------------------------------------------------------

  /** One `(oem, name, block_type)` entry of `blocked_rows`. */
  datatype BlockedRow = BlockedRow(oem: string, name: string, block: Block)

  function Pair(r: BlockedRow): Candidate {
    Candidate(r.oem, r.name)
  }

  /** The non-blank rows of one table, tagged with the block they sit in. */
  function Tagged(rows: seq<Candidate>, b: Block): seq<BlockedRow> {
    if rows == [] then []
    else
      var last := rows[|rows| - 1];
      Tagged(rows[..|rows| - 1], b) + (if Blank(last) then [] else [BlockedRow(last.oem, last.name, b)])
  }

  /** The pairs `_parse_oem_table_from_html` reads from each table of a section, in table order. */
  function RowsOf(tables: seq<Table>): seq<Candidate> {
    if tables == [] then []
    else RowsOf(tables[..|tables| - 1]) + SingleTableRows(tables[|tables| - 1])
  }

  /** Each section's kind with the pairs read from its tables, in visiting order. */
  function Parts(sections: seq<Section>): (ps: seq<(Block, seq<Candidate>)>)
    ensures |ps| == |sections|
  {
    if sections == [] then []
    else
      var last := sections[|sections| - 1];
      Parts(sections[..|sections| - 1]) + [(last.block, RowsOf(last.tables))]
  }

  /** The non-blank rows of every part, tagged with the part's kind. */
  function TagAll(ps: seq<(Block, seq<Candidate>)>): seq<BlockedRow> {
    if ps == [] then []
    else TagAll(ps[..|ps| - 1]) + Tagged(ps[|ps| - 1].1, ps[|ps| - 1].0)
  }

  /** `blocked_rows`: the tagged rows of every section, in visiting order. */
  function Blocked(sections: seq<Section>): seq<BlockedRow> {
    TagAll(Parts(sections))
  }

  /** Tagging works row by row, so it distributes over concatenation. */
  lemma {:induction false} TaggedAppend(a: seq<Candidate>, c: seq<Candidate>, b: Block)
    ensures Tagged(a + c, b) == Tagged(a, b) + Tagged(c, b)
    decreases |c|
  {
    if c == [] {
      assert a + c == a;
    } else {
      assert (a + c)[..|a + c| - 1] == a + c[..|c| - 1];
      TaggedAppend(a, c[..|c| - 1], b);
    }
  }

  lemma {:induction false} TaggedMember(rows: seq<Candidate>, b: Block, r: BlockedRow)
    ensures r in Tagged(rows, b) <==> r.block == b && Pair(r) in rows && !Blank(Pair(r))
  {
    if rows != [] {
      var init := rows[..|rows| - 1];
      TaggedMember(init, b, r);
      assert rows == init + [rows[|rows| - 1]];
    }
  }

  lemma {:induction false} TagAllMember(ps: seq<(Block, seq<Candidate>)>, r: BlockedRow)
    ensures r in TagAll(ps) <==>
      !Blank(Pair(r)) && exists i :: 0 <= i < |ps| && ps[i].0 == r.block && Pair(r) in ps[i].1
  {
    if ps != [] {
      var n := |ps| - 1;
      var init := ps[..n];
      TagAllMember(init, r);
      TaggedMember(ps[n].1, ps[n].0, r);
      if i :| 0 <= i < |init| && init[i].0 == r.block && Pair(r) in init[i].1 {
        assert init[i] == ps[i];
      }
      if i :| 0 <= i < |ps| && ps[i].0 == r.block && Pair(r) in ps[i].1 {
        if i < n {
          assert init[i] == ps[i];
        }
      }
    }
  }

  lemma {:induction false} PartsAt(sections: seq<Section>, i: nat)
    requires i < |sections|
    ensures Parts(sections)[i] == (sections[i].block, RowsOf(sections[i].tables))
    decreases |sections|
  {
    if i < |sections| - 1 {
      PartsAt(sections[..|sections| - 1], i);
    }
  }

  /**
   * A blocked row is a non-blank pair read from the tables of a section of its
   * own kind, and every such pair is a blocked row.
   */
  lemma BlockedMember(sections: seq<Section>, r: BlockedRow)
    ensures r in Blocked(sections) <==>
      !Blank(Pair(r)) &&
      exists i :: 0 <= i < |sections| && sections[i].block == r.block && Pair(r) in RowsOf(sections[i].tables)
  {
    var ps := Parts(sections);
    TagAllMember(ps, r);
    if i :| 0 <= i < |ps| && ps[i].0 == r.block && Pair(r) in ps[i].1 {
      PartsAt(sections, i);
    }
    if i :| 0 <= i < |sections| && sections[i].block == r.block && Pair(r) in RowsOf(sections[i].tables) {
      PartsAt(sections, i);
    }
  }

  // ---------------------------------------------------------------------------
  // The "Оригинал" candidates
  // ---------------------------------------------------------------------------

  /** The pairs of the rows tagged "Оригинал", in order. */
  function OriginalPairs(bs: seq<BlockedRow>): seq<Candidate> {
    if bs == [] then []
    else
      var last := bs[|bs| - 1];
      if last.block == Original then OriginalPairs(bs[..|bs| - 1]) + [Pair(last)]
      else OriginalPairs(bs[..|bs| - 1])
  }

  /** `original_oems`: the relevant pairs of the "Оригинал" sections, in order. */
  function Originals(bs: seq<BlockedRow>): seq<Candidate> {
    Filtered(OriginalPairs(bs))
  }

  lemma {:induction false} OriginalPairsMember(bs: seq<BlockedRow>, c: Candidate)
    ensures c in OriginalPairs(bs) <==> exists k :: 0 <= k < |bs| && bs[k].block == Original && Pair(bs[k]) == c
  {
    if bs != [] {
      var n := |bs| - 1;
      var init := bs[..n];
      OriginalPairsMember(init, c);
      if k :| 0 <= k < |init| && init[k].block == Original && Pair(init[k]) == c {
        assert init[k] == bs[k];
      }
      if k :| 0 <= k < |bs| && bs[k].block == Original && Pair(bs[k]) == c {
        if k < n {
          assert init[k] == bs[k];
        }
      }
    }
  }

  /** An original candidate is a relevant pair of an "Оригинал" row, and each such pair is one. */
  lemma OriginalsMember(bs: seq<BlockedRow>, c: Candidate)
    ensures c in Originals(bs) <==>
      Relevant(c.name) && exists k :: 0 <= k < |bs| && bs[k].block == Original && Pair(bs[k]) == c
  {
    OriginalPairsMember(bs, c);
    FilteredMember(OriginalPairs(bs), c);
  }

  lemma OriginalsRelevant(bs: seq<BlockedRow>)
    ensures forall k :: 0 <= k < |Originals(bs)| ==> Relevant(Originals(bs)[k].name)
  {
    forall k | 0 <= k < |Originals(bs)| ensures Relevant(Originals(bs)[k].name) {
      FilteredMember(OriginalPairs(bs), Originals(bs)[k]);
    }
  }

  /**
   * Ranking the original candidates keeps all of them, so the branch of
   * `_extract_from_prof_rf` that falls back to `original_oems[0]` when the
   * ranked list is empty can never run.
   */
  lemma RankedOriginals(bs: seq<BlockedRow>)
    ensures Filtered(Originals(bs)) == Originals(bs)
    ensures Originals(bs) != [] ==> PrioritySort(Filtered(Originals(bs))) != []
  {
    OriginalsRelevant(bs);
    FilteredKeepsRelevant(Originals(bs));
    PrioritySortPermutes(Originals(bs));
    assert |PrioritySort(Originals(bs))| == |multiset(Originals(bs))|;
  }

  // ---------------------------------------------------------------------------
  // The extraction cascade (`_extract_from_prof_rf`)
  // ---------------------------------------------------------------------------

  /** `(meta, model, oem, candidates_raw)` and the tags appended to `selectors_used`. */
  datatype Extraction = Extraction(
    meta: map<string, string>,
    model: Option<string>,
    oem: Option<string>,
    candidatesRaw: seq<Candidate>,
    selectors: seq<string>)

  /** The model, OEM and tags while the cascade runs. */
  datatype Picked = Picked(model: Option<string>, oem: Option<string>, selectors: seq<string>)

  /** `oem = top[0] or None; model = model or top[1]`. */
  function TakeTop(p: Picked, ranked: seq<Candidate>): Picked
    requires ranked != []
  {
    p.(oem := OrNone(ranked[0].oem), model := OrElse(p.model, ranked[0].name))
  }

  /** Step 2: the best-ranked "Оригинал" candidate. */
  function OriginalStep(originals: seq<Candidate>): Picked {
    if originals == [] then Picked(None, None, [])
    else
      var p := Picked(None, None, ["prof_rf:original_block"]);
      var ranked := PrioritySort(Filtered(originals));
      if ranked != [] then TakeTop(p, ranked) else TakeTop(p, originals)
  }

  /** Step 3: without an OEM so far, the best-ranked row of the page's tables. */
  function TableStep(p: Picked, raw: seq<Candidate>): Picked {
    if Truthy(p.oem) || raw == [] then p
    else
      var q := p.(selectors := p.selectors + ["prof_rf:table_candidates"]);
      var ranked := PrioritySort(Filtered(raw));
      if ranked != [] then TakeTop(q, ranked) else q
  }

  /** Step 4: without a model so far, the page-wide model extractor. */
  function ModelStep(p: Picked, hit: ModelHit): Picked {
    if Truthy(p.model) then p
    else p.(model := hit.model, selectors := p.selectors + hit.tags)
  }

  /** `_extract_from_prof_rf`. */
  function Extract(page: Page): Extraction {
    var meta := Meta(page.metaCaptures);
    var raw := OemTableRows(page.tables);
    if page.header.Some? then
      var h := page.header.value;
      if raw != [] then
        Extraction(meta, Some(HeaderModel(h)), Some(h.oem), raw, ["prof_rf:header_oem", "prof_rf:table_candidates"])
      else
        var own := if h.oem != [] then [Candidate(h.oem, HeaderModel(h))] else [];
        Extraction(meta, Some(HeaderModel(h)), Some(h.oem), own, ["prof_rf:header_oem"])
    else
      var p := Cascade(Originals(Blocked(page.sections)), raw, page.modelHit);
      Extraction(meta, p.model, p.oem, raw, p.selectors)
  }

  /** `_do_lookup_prof_rf` after the page loads: a response, or the HTTP error it raises. */
  function ProfRfOutcome(page: Page): Outcome<LookupResponse> {
    if page.notFound then Err(HttpError(404, "NOT_FOUND"))
    else
      var x := Extract(page);
      if !Truthy(x.model) && !Truthy(x.oem) then Err(HttpError(500, "PARSE_FAILED"))
      else
        var status := if Truthy(x.oem) then Found else NotAvailable;
        var gearbox := GearboxInfo(x.model, x.oem, FirstN(x.candidatesRaw, MaxCandidates), status);
        Ok(LookupResponse(x.meta, gearbox, FreshEvidence.(source := Some(ProfRf), selectorsUsed := x.selectors)))
  }

  // ---------------------------------------------------------------------------
  // Properties
  // ---------------------------------------------------------------------------

  /**
   * The status rules: a response is FOUND exactly when it names an OEM and
   * NOT_AVAILABLE otherwise (prof_rf never reports NOT_FOUND); it reports the
   * first ten rows of `candidates_raw`; a page with neither model nor OEM
   * fails 500 PARSE_FAILED and a not-found page 404 NOT_FOUND.
   */
  lemma ProfRfStatus(page: Page)
    ensures ProfRfOutcome(page).Err? <==>
      page.notFound || (!Truthy(Extract(page).model) && !Truthy(Extract(page).oem))
    ensures page.notFound ==> ProfRfOutcome(page) == Err(Http(404, Some("NOT_FOUND"), ""))
    ensures !page.notFound && !Truthy(Extract(page).model) && !Truthy(Extract(page).oem) ==>
      ProfRfOutcome(page) == Err(Http(500, Some("PARSE_FAILED"), ""))
    ensures ProfRfOutcome(page).Ok? ==>
      var g := ProfRfOutcome(page).value.gearbox;
      && g.model == Extract(page).model && g.oem == Extract(page).oem
      && (g.oemStatus == Found <==> Truthy(g.oem))
      && g.oemStatus != NotFound
      && g.oemCandidates == FirstN(Extract(page).candidatesRaw, MaxCandidates)
  {
  }

  /**
   * A header match decides the result: its OEM, the model text built from it,
   * and the rows of the page's first parts table, or the header's own pair
   * when there is none. A header OEM of the pattern's shape makes the
   * response FOUND.
   */
  lemma HeaderFirst(page: Page)
    requires !page.notFound && page.header.Some?
    ensures var h := page.header.value;
      var raw := OemTableRows(page.tables);
      var x := Extract(page);
      && ProfRfOutcome(page).Ok?
      && x.oem == Some(h.oem) && x.model == Some(h.prefix + " " + h.oem)
      && (raw != [] ==> x.candidatesRaw == raw && x.selectors == ["prof_rf:header_oem", "prof_rf:table_candidates"])
      && (raw == [] ==> (x.selectors == ["prof_rf:header_oem"]
           && x.candidatesRaw == if h.oem != [] then [Candidate(h.oem, h.prefix + " " + h.oem)] else []))
      && (HeaderOemShape(h.oem) ==> ProfRfOutcome(page).value.gearbox.oemStatus == Found)
  {
    var h := page.header.value;
    assert HeaderModel(h) != [] by {
      assert |HeaderModel(h)| == |h.prefix| + 1 + |h.oem|;
    }
  }

  /** The best-ranked relevant candidate is a relevant input row that no relevant row ranks before. */
  lemma TopRanked(cs: seq<Candidate>)
    requires Filtered(cs) != []
    ensures PrioritySort(Filtered(cs)) != []
    ensures var top := PrioritySort(Filtered(cs))[0];
      top in cs && Relevant(top.name) && top.name != [] && KeyBelowAll(top, Filtered(cs))
  {
    var kept := Filtered(cs);
    var ranked := PrioritySort(kept);
    PrioritySortPermutes(kept);
    PrioritySortOrders(kept);
    assert |ranked| == |multiset(kept)|;
    var top := ranked[0];
    assert top in multiset(kept);
    FilteredMember(cs, top);
    forall j | 0 <= j < |kept| ensures KeyLe(top, kept[j]) {
      assert kept[j] in multiset(ranked);
      var i :| 0 <= i < |ranked| && ranked[i] == kept[j];
      if i > 0 {
        assert KeyLe(ranked[0], ranked[i]);
      } else {
        KeyLeTotal(top, top);
      }
    }
    RelevantNameNonEmpty(top.name);
  }

  /** The cascade after the header step, from the original candidates, the table rows and the model extractor. */
  function Cascade(originals: seq<Candidate>, raw: seq<Candidate>, hit: ModelHit): Picked {
    ModelStep(TableStep(OriginalStep(originals), raw), hit)
  }

  lemma CascadeOriginal(originals: seq<Candidate>, raw: seq<Candidate>, hit: ModelHit)
    requires Filtered(originals) == originals != []
    ensures var top := PrioritySort(originals)[0];
      var p := Cascade(originals, raw, hit);
      p.model == Some(top.name)
      && (top.oem != [] ==> p.oem == Some(top.oem) && p.selectors == ["prof_rf:original_block"])
  {
    TopRanked(originals);
  }

  /**
   * An original candidate without an OEM still gives the model, but the
   * table step runs because its guard is the missing OEM: the best relevant
   * table row then supplies the OEM, and both tags are recorded.
   */
  lemma CascadeOriginalNoOem(originals: seq<Candidate>, raw: seq<Candidate>, hit: ModelHit)
    requires Filtered(originals) == originals != []
    requires PrioritySort(originals)[0].oem == []
    ensures var p := Cascade(originals, raw, hit);
      && p.model == Some(PrioritySort(originals)[0].name)
      && (raw == [] ==> p.oem == None && p.selectors == ["prof_rf:original_block"])
      && (raw != [] && Filtered(raw) == [] ==>
           p.oem == None && p.selectors == ["prof_rf:original_block", "prof_rf:table_candidates"])
      && (Filtered(raw) != [] ==>
           p.oem == OrNone(PrioritySort(Filtered(raw))[0].oem)
           && p.selectors == ["prof_rf:original_block", "prof_rf:table_candidates"])
  {
    TopRanked(originals);
    if Filtered(raw) != [] {
      TopRanked(raw);
    } else {
      assert PrioritySort([]) == [];
    }
  }

  lemma CascadeTable(raw: seq<Candidate>, hit: ModelHit)
    requires Filtered(raw) != []
    ensures var top := PrioritySort(Filtered(raw))[0];
      var p := Cascade([], raw, hit);
      p.model == Some(top.name) && p.oem == OrNone(top.oem) && p.selectors == ["prof_rf:table_candidates"]
  {
    TopRanked(raw);
  }

  lemma CascadeModel(raw: seq<Candidate>, hit: ModelHit)
    requires Filtered(raw) == []
    ensures var p := Cascade([], raw, hit);
      p.oem == None && p.model == hit.model
      && p.selectors == (if raw != [] then ["prof_rf:table_candidates"] else []) + hit.tags
  {
    assert PrioritySort([]) == [];
  }

  /**
   * Without a header, the best-ranked "Оригинал" candidate gives the model
   * and, when its OEM cell is filled, the OEM: it is a relevant pair read
   * from an "Оригинал" section, and no original candidate ranks before it.
   */
  lemma OriginalFirst(page: Page)
    requires !page.notFound && page.header.None?
    requires Originals(Blocked(page.sections)) != []
    ensures var originals := Originals(Blocked(page.sections));
      var top := PrioritySort(originals)[0];
      var x := Extract(page);
      && top in originals && KeyBelowAll(top, originals)
      && Relevant(top.name)
      && x.model == Some(top.name)
      && (top.oem != [] ==> (x.oem == Some(top.oem) && x.selectors == ["prof_rf:original_block"]
           && ProfRfOutcome(page).Ok? && ProfRfOutcome(page).value.gearbox.oemStatus == Found))
  {
    var originals := Originals(Blocked(page.sections));
    RankedOriginals(Blocked(page.sections));
    TopRanked(originals);
    CascadeOriginal(originals, OemTableRows(page.tables), page.modelHit);
  }

  /**
   * Without a header, when the best-ranked "Оригинал" candidate has an empty
   * OEM cell, it still names the model, and the OEM comes from the best
   * relevant row of the page's tables, if there is one.
   */
  lemma OriginalWithoutOem(page: Page)
    requires !page.notFound && page.header.None?
    requires Originals(Blocked(page.sections)) != []
    requires PrioritySort(Originals(Blocked(page.sections)))[0].oem == []
    ensures var top := PrioritySort(Originals(Blocked(page.sections)))[0];
      var raw := OemTableRows(page.tables);
      var x := Extract(page);
      && x.model == Some(top.name)
      && x.candidatesRaw == raw
      && ProfRfOutcome(page).Ok?
      && (raw == [] ==> x.oem == None && x.selectors == ["prof_rf:original_block"])
      && (raw != [] ==> x.selectors == ["prof_rf:original_block", "prof_rf:table_candidates"])
      && (Filtered(raw) == [] ==> x.oem == None)
      && (Filtered(raw) != [] ==> x.oem == OrNone(PrioritySort(Filtered(raw))[0].oem))
      && (ProfRfOutcome(page).value.gearbox.oemStatus == Found <==>
           Filtered(raw) != [] && PrioritySort(Filtered(raw))[0].oem != [])
  {
    var originals := Originals(Blocked(page.sections));
    RankedOriginals(Blocked(page.sections));
    TopRanked(originals);
    CascadeOriginalNoOem(originals, OemTableRows(page.tables), page.modelHit);
  }

  /**
   * Without a header and without any relevant "Оригинал" row, the best-ranked
   * relevant row of the page's first parts table gives the model and the OEM.
   */
  lemma TableFallback(page: Page)
    requires !page.notFound && page.header.None?
    requires Originals(Blocked(page.sections)) == []
    requires Filtered(OemTableRows(page.tables)) != []
    ensures var raw := OemTableRows(page.tables);
      var top := PrioritySort(Filtered(raw))[0];
      var x := Extract(page);
      && top in raw && Relevant(top.name) && KeyBelowAll(top, Filtered(raw))
      && x.model == Some(top.name) && x.oem == OrNone(top.oem)
      && x.candidatesRaw == raw
      && x.selectors == ["prof_rf:table_candidates"]
  {
    TopRanked(OemTableRows(page.tables));
    CascadeTable(OemTableRows(page.tables), page.modelHit);
  }

  /**
   * With no header and no relevant row anywhere there is no OEM: the model is
   * whatever the page-wide model extractor finds, and without one the lookup
   * fails 500 PARSE_FAILED.
   */
  lemma ModelFallback(page: Page)
    requires !page.notFound && page.header.None?
    requires Originals(Blocked(page.sections)) == []
    requires Filtered(OemTableRows(page.tables)) == []
    ensures var raw := OemTableRows(page.tables);
      var x := Extract(page);
      && x.oem == None && x.model == page.modelHit.model
      && x.selectors == (if raw != [] then ["prof_rf:table_candidates"] else []) + page.modelHit.tags
      && (ProfRfOutcome(page).Err? <==> !Truthy(page.modelHit.model))
      && (ProfRfOutcome(page).Ok? ==> ProfRfOutcome(page).value.gearbox.oemStatus == NotAvailable)
  {
    CascadeModel(OemTableRows(page.tables), page.modelHit);
  }

  // ---------------------------------------------------------------------------
  // The provider
  // ---------------------------------------------------------------------------

  /** The inner loop of `_parse_prof_rf_blocks`: keep a table's non-blank pairs. */
  method TagRows(rows: seq<Candidate>, b: Block) returns (tagged: seq<BlockedRow>)
    ensures tagged == Tagged(rows, b)
  {
    tagged := [];
    for i := 0 to |rows|
      invariant tagged == Tagged(rows[..i], b)
    {
      assert rows[..i + 1][..i] == rows[..i];
      var c := rows[i];
      if c.oem != [] || c.name != [] {
        tagged := tagged + [BlockedRow(c.oem, c.name, b)];
      } else {
        assert Tagged(rows[..i + 1], b) == tagged + [];
      }
    }
    assert rows[..|rows|] == rows;
  }

  /** The tables of one section, each parsed by `_parse_oem_table_from_html`. */
  method TagSection(tables: seq<Table>, b: Block) returns (tagged: seq<BlockedRow>)
    ensures tagged == Tagged(RowsOf(tables), b)
  {
    tagged := [];
    for j := 0 to |tables|
      invariant tagged == Tagged(RowsOf(tables[..j]), b)
    {
      assert tables[..j + 1][..j] == tables[..j];
      var rows := ParseOemTableFromHtml(tables[j]);
      var more := TagRows(rows, b);
      TaggedAppend(RowsOf(tables[..j]), rows, b);
      tagged := tagged + more;
    }
    assert tables[..|tables|] == tables;
  }

  /** `_parse_prof_rf_blocks`: the blocked rows and `_parse_oem_table` of the whole page. */
  method ParseProfRfBlocks(sections: seq<Section>, tables: seq<Table>) returns (blocked: seq<BlockedRow>, allRows: seq<Candidate>)
    ensures blocked == Blocked(sections)
    ensures allRows == OemTableRows(tables)
  {
    blocked := [];
    for i := 0 to |sections|
      invariant blocked == Blocked(sections[..i])
    {
      assert sections[..i + 1][..i] == sections[..i];
      var more := TagSection(sections[i].tables, sections[i].block);
      ghost var ps := Parts(sections[..i + 1]);
      assert ps[..|ps| - 1] == Parts(sections[..i]);
      blocked := blocked + more;
    }
    assert sections[..|sections|] == sections;
    allRows := ParseOemTable(tables);
  }

  /** The `original_oems` loop of `_extract_from_prof_rf`. */
  method CollectOriginals(blocked: seq<BlockedRow>) returns (originals: seq<Candidate>)
    ensures originals == Originals(blocked)
  {
    originals := [];
    for i := 0 to |blocked|
      invariant originals == Originals(blocked[..i])
    {
      assert blocked[..i + 1][..i] == blocked[..i];
      var r := blocked[i];
      OriginalBlockOnly(r.block);
      if Lower(BlockName(r.block)) == "оригинал" {
        ghost var pairs := OriginalPairs(blocked[..i + 1]);
        assert pairs[..|pairs| - 1] == OriginalPairs(blocked[..i]) && pairs[|pairs| - 1] == Pair(r);
        var nameLower := Lower(r.name);
        if ContainsAny(nameLower, OemExcludePatterns) {
          assert Filtered(pairs) == originals + [];
          continue;
        }
        if ContainsAny(nameLower, OemIncludePatterns) {
          originals := originals + [Candidate(r.oem, r.name)];
        } else {
          assert Filtered(pairs) == originals + [];
        }
      }
    }
    assert blocked[..|blocked|] == blocked;
  }

  /** Step 2 of `_extract_from_prof_rf`, on the still empty model, OEM and tags. */
  method PickOriginal(originals: seq<Candidate>) returns (p: Picked)
    ensures p == OriginalStep(originals)
  {
    p := Picked(None, None, []);
    if originals != [] {
      p := p.(selectors := p.selectors + ["prof_rf:original_block"]);
      var filtered := FilterOemCandidates(originals, true);
      if filtered != [] {
        p := p.(oem := OrNone(filtered[0].oem), model := OrElse(p.model, filtered[0].name));
      } else {
        p := p.(oem := OrNone(originals[0].oem), model := OrElse(p.model, originals[0].name));
      }
    }
  }

  /** Step 3 of `_extract_from_prof_rf`. */
  method PickFromTable(p: Picked, candidatesRaw: seq<Candidate>) returns (q: Picked)
    ensures q == TableStep(p, candidatesRaw)
  {
    q := p;
    if !Truthy(q.oem) && candidatesRaw != [] {
      q := q.(selectors := q.selectors + ["prof_rf:table_candidates"]);
      var filtered := FilterOemCandidates(candidatesRaw, true);
      if filtered != [] {
        q := q.(oem := OrNone(filtered[0].oem), model := OrElse(q.model, filtered[0].name));
      }
    }
  }

  /** `_extract_from_prof_rf`, appending to `selectors_used` as it goes. */
  method ExtractFromProfRf(page: Page) returns (x: Extraction)
    ensures x == Extract(page)
  {
    var meta := ExtractMeta(page.metaCaptures);
    if page.header.Some? {
      var h := page.header.value;
      var selectors := ["prof_rf:header_oem"];
      var model, oem := h.prefix + " " + h.oem, h.oem;
      var candidatesRaw := ParseOemTable(page.tables);
      if candidatesRaw != [] {
        selectors := selectors + ["prof_rf:table_candidates"];
      } else {
        candidatesRaw := if oem != [] then [Candidate(oem, model)] else [];
      }
      return Extraction(meta, Some(model), Some(oem), candidatesRaw, selectors);
    }
    var blocked, candidatesRaw := ParseProfRfBlocks(page.sections, page.tables);
    var originals := CollectOriginals(blocked);
    var p := PickOriginal(originals);
    p := PickFromTable(p, candidatesRaw);
    if !Truthy(p.model) {
      p := p.(model := page.modelHit.model, selectors := p.selectors + page.modelHit.tags);
    }
    x := Extraction(meta, p.model, p.oem, candidatesRaw, p.selectors);
  }

  /** `_do_lookup_prof_rf` after the page loads. */
  method LookupProfRf(page: Page) returns (r: Outcome<LookupResponse>)
    ensures r == ProfRfOutcome(page)
  {
    var evidence := FreshEvidence.(source := Some(ProfRf));
    if page.notFound {
      return Err(HttpError(404, "NOT_FOUND"));
    }
    var x := ExtractFromProfRf(page);
    evidence := evidence.(selectorsUsed := x.selectors);
    if !Truthy(x.model) && !Truthy(x.oem) {
      return Err(HttpError(500, "PARSE_FAILED"));
    }
    var status := if Truthy(x.oem) then Found else NotAvailable;
    var gearbox := GearboxInfo(x.model, x.oem, FirstN(x.candidatesRaw, MaxCandidates), status);
    r := Ok(LookupResponse(x.meta, gearbox, evidence));
  }
}
