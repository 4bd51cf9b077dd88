/**
 * The source router (`_do_lookup_routed` and `_add_source_evidence`,
 * podzamenu_lookup_service.py:711-783).
 *
 * The two providers are calls into the browser: what each would answer for
 * this request is an input (`pz` for podzamenu, `pr` for prof_rf), and the
 * router reports which of them it actually called, in order.
 */
module Router {
  import opened Wrappers
  import opened LookupTypes

  /** What one routed lookup answers, and the providers it called. */
  datatype Routed = Routed(outcome: Outcome<LookupResponse>, queried: seq<Source>)

  /** `_add_source_evidence`. */
  function WithSources(r: LookupResponse, tried: seq<Source>, selected: Source): (s: LookupResponse)
    ensures s.vehicleMeta == r.vehicleMeta && s.gearbox == r.gearbox
    ensures s.evidence == r.evidence.(sourceTried := tried, sourceSelected := Some(selected))
  {
    r.(evidence := r.evidence.(sourceTried := tried, sourceSelected := Some(selected)))
  }

  /** A provider's answer, its response (if any) marked as the only source tried and the one selected. */
  function Single(o: Outcome<LookupResponse>, src: Source): Outcome<LookupResponse> {
    if o.Ok? then Ok(WithSources(o.value, [src], src)) else o
  }

  /** The error `except HTTPException as e` hands on to prof_rf: a 404 whose detail says NOT_FOUND. */
  predicate IsNotFound(f: Failure) {
    f.Http? && f.status == 404 && f.error == Some("NOT_FOUND")
  }

  /** The auto strategy for a VIN: podzamenu first, prof_rf when podzamenu has no OEM. */
  function Auto(pz: Outcome<LookupResponse>, pr: Outcome<LookupResponse>): Routed {
    var both := [Podzamenu, ProfRf];
    match pz
    case Ok(res) =>
      if res.gearbox.oemStatus == Found then Routed(Ok(WithSources(res, [Podzamenu], Podzamenu)), [Podzamenu])
      else (
        match pr
        case Ok(res2) =>
          if res2.gearbox.oemStatus == Found then Routed(Ok(WithSources(res2, both, ProfRf)), both)
          else Routed(Ok(WithSources(res, both, Podzamenu)), both)
        case Err(f) =>
          if f.Http? then Routed(Ok(WithSources(res, [Podzamenu], Podzamenu)), both)
          else Routed(Err(f), both))
    case Err(e) =>
      if !IsNotFound(e) then Routed(Err(e), [Podzamenu])
      else (
        match pr
        case Ok(res2) => Routed(Ok(WithSources(res2, both, ProfRf)), both)
        case Err(f) => if f.Http? then Routed(Err(e), both) else Routed(Err(f), both))
  }

  /** `_do_lookup_routed` under SOURCE_STRATEGY `strategy` (already lower-cased). */
  function Route(idType: string, strategy: string, pz: Outcome<LookupResponse>, pr: Outcome<LookupResponse>): Routed {
    if idType == "FRAME" then
      if strategy == "prof_rf" then Routed(Err(HttpError(400, "UNSUPPORTED_ID_TYPE")), [])
      else Routed(Single(pz, Podzamenu), [Podzamenu])
    else if strategy == "podzamenu" then Routed(Single(pz, Podzamenu), [Podzamenu])
    else if strategy == "prof_rf" then Routed(Single(pr, ProfRf), [ProfRf])
    else Auto(pz, pr)
  }

  // ---------------------------------------------------------------------------
  // Properties
  // ---------------------------------------------------------------------------

  /**
   * Every provider is called at most once, podzamenu always first; a
   * response lists the providers that answered, in call order, and the
   * selected one among them.
   */
  lemma RouteShape(idType: string, strategy: string, pz: Outcome<LookupResponse>, pr: Outcome<LookupResponse>)
    ensures var rt := Route(idType, strategy, pz, pr);
      && rt.queried in [[], [Podzamenu], [ProfRf], [Podzamenu, ProfRf]]
      && (rt.outcome.Ok? ==>
           var e := rt.outcome.value.evidence;
           && e.sourceSelected.Some? && e.sourceSelected.value in e.sourceTried
           && (forall i :: 0 <= i < |e.sourceTried| ==> e.sourceTried[i] == rt.queried[i])
           && |e.sourceTried| <= |rt.queried|)
  {
    var rt := Route(idType, strategy, pz, pr);
    if rt.outcome.Ok? {
      var e := rt.outcome.value.evidence;
      if rt.queried == [Podzamenu] {
        assert e.sourceTried == [Podzamenu] && e.sourceSelected == Some(Podzamenu);
      } else if rt.queried == [ProfRf] {
        assert e.sourceTried == [ProfRf] && e.sourceSelected == Some(ProfRf);
      } else {
        assert e.sourceTried == [Podzamenu] || e.sourceTried == [Podzamenu, ProfRf];
      }
    }
  }

  /**
   * A response is one of the providers' responses, changed only in its
   * `sourceTried` and `sourceSelected` evidence; an error is a provider's
   * error, or UNSUPPORTED_ID_TYPE.
   */
  lemma RouteAnswersFromProviders(idType: string, strategy: string, pz: Outcome<LookupResponse>, pr: Outcome<LookupResponse>)
    ensures var rt := Route(idType, strategy, pz, pr);
      && (rt.outcome.Ok? ==>
           var e := rt.outcome.value.evidence;
           (pz.Ok? && e.sourceSelected == Some(Podzamenu) && rt.outcome.value == WithSources(pz.value, e.sourceTried, Podzamenu))
           || (pr.Ok? && e.sourceSelected == Some(ProfRf) && rt.outcome.value == WithSources(pr.value, e.sourceTried, ProfRf)))
      && (rt.outcome.Err? ==>
           rt.outcome == pz || rt.outcome == pr || rt.outcome == Err(Http(400, Some("UNSUPPORTED_ID_TYPE"), "")))
  {
  }

  /** A FRAME number never reaches prof_rf, and under strategy "prof_rf" it is refused outright. */
  lemma FrameOnlyPodzamenu(strategy: string, pz: Outcome<LookupResponse>, pr: Outcome<LookupResponse>)
    ensures ProfRf !in Route("FRAME", strategy, pz, pr).queried
    ensures strategy == "prof_rf" ==>
      Route("FRAME", strategy, pz, pr) == Routed(Err(Http(400, Some("UNSUPPORTED_ID_TYPE"), "")), [])
    ensures strategy != "prof_rf" ==>
      Route("FRAME", strategy, pz, pr) == Routed(Single(pz, Podzamenu), [Podzamenu])
  {
  }

  /** A pinned strategy calls exactly its own provider and answers what it answers. */
  lemma PinnedStrategies(idType: string, pz: Outcome<LookupResponse>, pr: Outcome<LookupResponse>)
    requires idType != "FRAME"
    ensures Route(idType, "podzamenu", pz, pr) == Routed(Single(pz, Podzamenu), [Podzamenu])
    ensures Route(idType, "prof_rf", pz, pr) == Routed(Single(pr, ProfRf), [ProfRf])
  {
  }

  /** Auto: a FOUND podzamenu response is returned and prof_rf is never called. */
  lemma AutoPodzamenuFound(pz: Outcome<LookupResponse>, pr: Outcome<LookupResponse>)
    requires pz.Ok? && pz.value.gearbox.oemStatus == Found
    ensures Auto(pz, pr) == Routed(Ok(WithSources(pz.value, [Podzamenu], Podzamenu)), [Podzamenu])
  {
  }

  /**
   * Auto: after a podzamenu response without FOUND, prof_rf is called once;
   * its response is returned exactly when it is FOUND, an HTTP error from it
   * is ignored, and any other error from it propagates.
   */
  lemma AutoPodzamenuWithoutOem(pz: Outcome<LookupResponse>, pr: Outcome<LookupResponse>)
    requires pz.Ok? && pz.value.gearbox.oemStatus != Found
    ensures var rt := Auto(pz, pr);
      && rt.queried == [Podzamenu, ProfRf]
      && (pr.Ok? && pr.value.gearbox.oemStatus == Found ==>
           rt.outcome == Ok(WithSources(pr.value, [Podzamenu, ProfRf], ProfRf)))
      && (pr.Ok? && pr.value.gearbox.oemStatus != Found ==>
           rt.outcome == Ok(WithSources(pz.value, [Podzamenu, ProfRf], Podzamenu)))
      && (pr.Err? && pr.failure.Http? ==> rt.outcome == Ok(WithSources(pz.value, [Podzamenu], Podzamenu)))
      && (pr.Err? && !pr.failure.Http? ==> rt.outcome == pr)
  {
  }

  /**
   * Auto: a podzamenu 404 NOT_FOUND hands over to prof_rf, whose response is
   * returned whatever its status; when prof_rf fails with an HTTP error the
   * original podzamenu error is raised again.
   */
  lemma AutoPodzamenuNotFound(pz: Outcome<LookupResponse>, pr: Outcome<LookupResponse>)
    requires pz.Err? && IsNotFound(pz.failure)
    ensures var rt := Auto(pz, pr);
      && rt.queried == [Podzamenu, ProfRf]
      && (pr.Ok? ==> rt.outcome == Ok(WithSources(pr.value, [Podzamenu, ProfRf], ProfRf)))
      && (pr.Err? && pr.failure.Http? ==> rt.outcome == pz)
      && (pr.Err? && !pr.failure.Http? ==> rt.outcome == pr)
  {
  }

  /** Auto: any other podzamenu error (PARSE_FAILED, a browser error) propagates and prof_rf is not called. */
  lemma AutoPodzamenuOtherError(pz: Outcome<LookupResponse>, pr: Outcome<LookupResponse>)
    requires pz.Err? && !IsNotFound(pz.failure)
    ensures Auto(pz, pr) == Routed(pz, [Podzamenu])
  {
  }

  /** Auto never hides an OEM: a response without FOUND means no provider it called returned FOUND. */
  lemma AutoKeepsFound(pz: Outcome<LookupResponse>, pr: Outcome<LookupResponse>)
    requires Auto(pz, pr).outcome.Ok? && Auto(pz, pr).outcome.value.gearbox.oemStatus != Found
    ensures pz.Ok? ==> pz.value.gearbox.oemStatus != Found
    ensures ProfRf in Auto(pz, pr).queried && pr.Ok? ==> pr.value.gearbox.oemStatus != Found
  {
  }

  // ---------------------------------------------------------------------------
  // The router
  // ---------------------------------------------------------------------------

  /**
   * `_do_lookup_routed`: calls the providers as the strategy says, appending
   * to `source_tried` and stamping the chosen response's evidence.
   */
  method LookupRouted(idType: string, strategy: string, pz: Outcome<LookupResponse>, pr: Outcome<LookupResponse>)
    returns (r: Outcome<LookupResponse>, queried: seq<Source>)
    ensures Routed(r, queried) == Route(idType, strategy, pz, pr)
  {
    var sourceTried: seq<Source> := [];
    queried := [];
    if idType == "FRAME" {
      if strategy == "prof_rf" {
        return Err(HttpError(400, "UNSUPPORTED_ID_TYPE")), queried;
      }
      queried := queried + [Podzamenu];
      r := pz;
      if r.Ok? {
        r := Ok(WithSources(r.value, [Podzamenu], Podzamenu));
      }
      return;
    }
    if strategy == "podzamenu" {
      queried := queried + [Podzamenu];
      r := pz;
      if r.Ok? {
        r := Ok(WithSources(r.value, [Podzamenu], Podzamenu));
      }
      return;
    }
    if strategy == "prof_rf" {
      queried := queried + [ProfRf];
      r := pr;
      if r.Ok? {
        r := Ok(WithSources(r.value, [ProfRf], ProfRf));
      }
      return;
    }
    // auto
    queried := queried + [Podzamenu];
    if pz.Ok? {
      var result := pz.value;
      sourceTried := sourceTried + [Podzamenu];
      assert sourceTried == [Podzamenu];
      if result.gearbox.oemStatus == Found {
        return Ok(WithSources(result, sourceTried, Podzamenu)), queried;
      }
      queried := queried + [ProfRf];
      if pr.Ok? {
        var result2 := pr.value;
        sourceTried := sourceTried + [ProfRf];
        assert sourceTried == [Podzamenu, ProfRf];
        if result2.gearbox.oemStatus == Found {
          return Ok(WithSources(result2, sourceTried, ProfRf)), queried;
        }
      } else if !pr.failure.Http? {
        return pr, queried;
      }
      return Ok(WithSources(result, sourceTried, Podzamenu)), queried;
    }
    var e := pz.failure;
    if e.Http? && e.status == 404 && e.error == Some("NOT_FOUND") {
      sourceTried := sourceTried + [Podzamenu];
      assert sourceTried == [Podzamenu];
      queried := queried + [ProfRf];
      if pr.Ok? {
        sourceTried := sourceTried + [ProfRf];
        assert sourceTried == [Podzamenu, ProfRf];
        return Ok(WithSources(pr.value, sourceTried, ProfRf)), queried;
      } else if !pr.failure.Http? {
        return pr, queried;
      }
    }
    assert pz == Err(e);
    r := Err(e);
  }
}
