/**
 * The podzamenu provider (`_do_lookup_podzamenu`,
 * podzamenu_lookup_service.py:321-460): what it returns once the browser has
 * loaded the search page and, possibly, the gearbox page.
 */
module Podzamenu {
  import opened Wrappers
  import opened Candidates
  import opened OemTable
  import opened VehicleMeta
  import opened LookupTypes

  /**
   * What the browser session yields, as the lookup logic sees it.
   * - notFound: the search page matches one of NOT_FOUND_PATTERNS (`_is_not_found`);
   * - metaCaptures: the vehicle-meta captures of the search page;
   * - modelHit: what `_extract_model_from_page` reports on the search page;
   * - link: the selector tag recorded when a "Коробка передач"/"КПП" link was
   *   clicked, `None` when no link could be clicked;
   * - gearboxTables: the tables of the page the link led to.
   */
  datatype Session = Session(
    notFound: bool,
    metaCaptures: map<string, string>,
    modelHit: ModelHit,
    link: Option<string>,
    gearboxTables: seq<Table>)

  /** The raw rows of the gearbox page (`_parse_oem_table(gearbox_html)`). */
  function RawRows(s: Session): seq<Candidate> {
    OemTableRows(s.gearboxTables)
  }

  /** The gearbox block `_do_lookup_podzamenu` reports once the model is known. */
  function PodzamenuGearbox(s: Session): GearboxInfo
    requires Truthy(s.modelHit.model)
  {
    var noOem := GearboxInfo(s.modelHit.model, None, [], NotAvailable);
    if s.link.None? then noOem
    else
      var raw := RawRows(s);
      var listed := noOem.(oemCandidates := FirstN(raw, MaxCandidates));
      if raw == [] then listed
      else
        var filtered := Filtered(raw);
        if filtered != [] then listed.(oem := OrNone(filtered[0].oem), oemStatus := Found)
        else listed.(oemStatus := NotFound)
  }

  /** The evidence of a successful podzamenu lookup. */
  function PodzamenuEvidence(s: Session): Evidence {
    FreshEvidence.(
      source := Some(Podzamenu),
      selectorsUsed := if s.link.Some? then s.modelHit.tags + [s.link.value] else s.modelHit.tags,
      gearboxLinkNotFound := s.link.None?,
      gearboxPageParseFailed := s.link.Some? && RawRows(s) == [])
  }

  /** `_do_lookup_podzamenu`: a response, or the HTTP error it raises. */
  function PodzamenuOutcome(s: Session): Outcome<LookupResponse> {
    if s.notFound then Err(HttpError(404, "NOT_FOUND"))
    else if !Truthy(s.modelHit.model) then Err(HttpError(500, "PARSE_FAILED"))
    else Ok(LookupResponse(Meta(s.metaCaptures), PodzamenuGearbox(s), PodzamenuEvidence(s)))
  }

  // ---------------------------------------------------------------------------
  // Properties
  // ---------------------------------------------------------------------------

  /** A not-found page fails 404 NOT_FOUND; a page without a model fails 500 PARSE_FAILED. */
  lemma PodzamenuFailures(s: Session)
    ensures PodzamenuOutcome(s).Err? <==> s.notFound || !Truthy(s.modelHit.model)
    ensures s.notFound ==> PodzamenuOutcome(s) == Err(Http(404, Some("NOT_FOUND"), ""))
    ensures !s.notFound && !Truthy(s.modelHit.model) ==>
      PodzamenuOutcome(s) == Err(Http(500, Some("PARSE_FAILED"), ""))
  {
  }

  /** A response always carries the extracted model, and the meta of the search page. */
  lemma PodzamenuModel(s: Session)
    requires PodzamenuOutcome(s).Ok?
    ensures Truthy(PodzamenuOutcome(s).value.gearbox.model)
    ensures PodzamenuOutcome(s).value.gearbox.model == s.modelHit.model
    ensures PodzamenuOutcome(s).value.vehicleMeta == Meta(s.metaCaptures)
  {
  }

  /** `oemCandidates` is the first ten raw rows, unfiltered; empty when no link was clicked. */
  lemma PodzamenuCandidates(s: Session)
    requires PodzamenuOutcome(s).Ok?
    ensures var cs := PodzamenuOutcome(s).value.gearbox.oemCandidates;
      if s.link.None? then cs == []
      else
        var raw := RawRows(s);
        |cs| == (if |raw| < MaxCandidates then |raw| else MaxCandidates)
        && forall i :: 0 <= i < |cs| ==> cs[i] == raw[i]
  {
    var cs := PodzamenuOutcome(s).value.gearbox.oemCandidates;
    if s.link.Some? {
      var raw := RawRows(s);
      assert cs == FirstN(raw, MaxCandidates);
      forall i | 0 <= i < |cs| ensures cs[i] == raw[i] {
        assert cs[i] == raw[..|cs|][i];
      }
    }
  }

  /**
   * The status rules: FOUND exactly when a link was clicked and some raw row
   * passes the filter, NOT_FOUND when rows were read but none passes,
   * NOT_AVAILABLE otherwise (no link, or no rows on the gearbox page).
   */
  lemma PodzamenuStatus(s: Session)
    requires PodzamenuOutcome(s).Ok?
    ensures var g := PodzamenuOutcome(s).value.gearbox;
      && (g.oemStatus == Found <==> s.link.Some? && Filtered(RawRows(s)) != [])
      && (g.oemStatus == NotFound <==> s.link.Some? && RawRows(s) != [] && Filtered(RawRows(s)) == [])
      && (g.oemStatus == NotAvailable <==> s.link.None? || RawRows(s) == [])
  {
    if s.link.Some? && RawRows(s) == [] {
      assert Filtered(RawRows(s)) == [];
    }
  }

  /**
   * A FOUND response names the OEM of the first raw row that passes the filter,
   * or no OEM at all when that row's OEM cell is empty; otherwise there is no OEM.
   */
  lemma PodzamenuOem(s: Session, k: nat)
    requires PodzamenuOutcome(s).Ok? && s.link.Some?
    requires k < |RawRows(s)| && Relevant(RawRows(s)[k].name)
    requires forall j :: 0 <= j < k ==> !Relevant(RawRows(s)[j].name)
    ensures var g := PodzamenuOutcome(s).value.gearbox;
      g.oemStatus == Found && g.oem == OrNone(RawRows(s)[k].oem)
      && (RawRows(s)[k].oem == [] ==> g.oem == None)
  {
    FilteredHead(RawRows(s), k);
  }

  lemma PodzamenuNoOem(s: Session)
    requires PodzamenuOutcome(s).Ok?
    requires PodzamenuOutcome(s).value.gearbox.oemStatus != Found
    ensures PodzamenuOutcome(s).value.gearbox.oem == None
  {
  }

  /** The diagnostics: a missing link, or a gearbox page without rows. */
  lemma PodzamenuDiagnostics(s: Session)
    requires PodzamenuOutcome(s).Ok?
    ensures var e := PodzamenuOutcome(s).value.evidence;
      e.source == Some(Podzamenu)
      && (e.gearboxLinkNotFound <==> s.link.None?)
      && (e.gearboxPageParseFailed <==> s.link.Some? && RawRows(s) == [])
  {
  }

  // ---------------------------------------------------------------------------
  // The provider
  // ---------------------------------------------------------------------------

  /** `_do_lookup_podzamenu` after the page loads. */
  method LookupPodzamenu(s: Session) returns (r: Outcome<LookupResponse>)
    ensures r == PodzamenuOutcome(s)
  {
    var evidence := FreshEvidence.(source := Some(Podzamenu));
    if s.notFound {
      return Err(HttpError(404, "NOT_FOUND"));
    }
    var meta := ExtractMeta(s.metaCaptures);
    // the model extractor records its tags in the fresh `selectors_used` list
    var gearboxModel := s.modelHit.model;
    var selectorsUsed := s.modelHit.tags;
    if !Truthy(gearboxModel) {
      return Err(HttpError(500, "PARSE_FAILED"));
    }
    var gearbox := GearboxInfo(gearboxModel, None, [], NotAvailable);
    if s.link.Some? {
      selectorsUsed := selectorsUsed + [s.link.value];
      var candidatesRaw := ParseOemTable(s.gearboxTables);
      gearbox := gearbox.(oemCandidates := FirstN(candidatesRaw, MaxCandidates));
      if candidatesRaw != [] {
        var filtered := FilterOemCandidates(candidatesRaw, false);
        if filtered != [] {
          gearbox := gearbox.(oem := OrNone(filtered[0].oem), oemStatus := Found);
        } else {
          gearbox := gearbox.(oemStatus := NotFound);
        }
      } else {
        evidence := evidence.(gearboxPageParseFailed := true);
      }
    } else {
      evidence := evidence.(gearboxLinkNotFound := true);
    }
    evidence := evidence.(selectorsUsed := selectorsUsed);
    r := Ok(LookupResponse(meta, gearbox, evidence));
  }
}
