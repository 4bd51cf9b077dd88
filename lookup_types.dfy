/**
 * The values the lookup service returns and the ways a lookup fails
 * (podzamenu_lookup_service.py:46-66 and the HTTPException details raised
 * throughout the file).
 */
module LookupTypes {
  import opened Wrappers
  import opened Candidates

  /** `oemStatus`: "FOUND" | "NOT_FOUND" | "NOT_AVAILABLE". */
  datatype Status = Found | NotFound | NotAvailable

  /** The two catalogue sites a lookup can query. */
  datatype Source = Podzamenu | ProfRf

  /** At most this many raw table rows are reported as `oemCandidates`. */
  const MaxCandidates: nat := 10

  /** `GearboxInfo`: `None` stands for Python's `None`. */
  datatype GearboxInfo = GearboxInfo(
    model: Option<string>,
    oem: Option<string>,
    oemCandidates: seq<Candidate>,
    oemStatus: Status)

  /**
   * The parts of the `evidence` dict the lookup logic writes:
   * - source: `evidence["source"]`, set by the provider that ran;
   * - selectorsUsed: the tags the extractors append, in order;
   * - gearboxLinkNotFound, gearboxPageParseFailed: the diagnostics set on the
   *   podzamenu path (`parseError` is only set on the failure paths, whose
   *   evidence travels inside the error detail and is not modelled);
   * - sourceTried, sourceSelected: set by the router (`_add_source_evidence`).
   */
  datatype Evidence = Evidence(
    source: Option<Source>,
    selectorsUsed: seq<string>,
    gearboxLinkNotFound: bool,
    gearboxPageParseFailed: bool,
    sourceTried: seq<Source>,
    sourceSelected: Option<Source>)

  /** The evidence a provider starts from: `{**evidence, "finalUrl": "", "selectorsUsed": []}`. */
  const FreshEvidence: Evidence := Evidence(None, [], false, false, [], None)

  /** `LookupResponse`; `vehicleMeta` maps the English keys to their values. */
  datatype LookupResponse = LookupResponse(
    vehicleMeta: map<string, string>,
    gearbox: GearboxInfo,
    evidence: Evidence)

  /**
   * Why a lookup did not produce a response.
   * - Http: an `HTTPException` with its status code; `error` is the detail's
   *   `"error"` entry when the detail is a dict, and `message` its text otherwise
   *   or its `"message"` entry;
   * - Other: any other exception, by its `str()` and its type name.
   */
  datatype Failure =
    | Http(status: int, error: Option<string>, message: string)
    | Other(message: string, typeName: string)

  datatype Outcome<T> = Ok(value: T) | Err(failure: Failure)

  /** An `HTTPException` whose detail is `{"error": code}`. */
  function HttpError(status: int, code: string): Failure {
    Http(status, Some(code), "")
  }

  /** Python truthiness of an optional string: `None` and `""` are false. */
  predicate Truthy(s: Option<string>) {
    s.Some? && s.value != []
  }

  /** `s[:n]` on a list. */
  function FirstN<T>(s: seq<T>, n: nat): (r: seq<T>)
    ensures |r| <= n && |r| <= |s| && r == s[..|r|]
    ensures |r| == n || r == s
  {
    if |s| <= n then s else s[..n]
  }

  /**
   * What a model extractor (`_extract_model_from_page`) reports: the model
   * it found, if any, and the selector tags it appended to `selectors_used`.
   * Its regular-expression strategies are not modelled.
   */
  datatype ModelHit = ModelHit(model: Option<string>, tags: seq<string>)

  /** `x or None` for a string `x`. */
  function OrNone(s: string): (r: Option<string>)
    ensures r == None <==> s == []
    ensures Truthy(r) <==> s != []
    ensures r.Some? ==> r.value == s
  {
    if s == [] then None else Some(s)
  }

  /** `a or b` for an optional string `a` and a string `b`. */
  function OrElse(a: Option<string>, b: string): (r: Option<string>)
    ensures Truthy(a) ==> r == a
    ensures !Truthy(a) ==> r == Some(b)
  {
    if Truthy(a) then a else Some(b)
  }
}
