/**
 * The vehicle-meta extractor (`_extract_meta_from_page`,
 * podzamenu_lookup_service.py:224-235, with META_LABELS at 115-124).
 *
 * The page is searched, lower-cased, for `<label>\s*[:：]\s*([^<\n]+)`. The
 * regular-expression search is not modelled: `captures` maps each label to the
 * text the pattern captures after it in the page, and has no entry for a label
 * the pattern does not find.
 */
module VehicleMeta {
  import opened Text

  /** META_LABELS, in the dict's insertion order: page label and English key. */
  const MetaLabels: seq<(string, string)> := [
    ("марка", "make"), ("модель", "model"), ("год", "year"), ("двигатель", "engine"),
    ("engine", "engine"), ("make", "make"), ("model", "model"), ("year", "year")
  ]

  const MetaValueLimit: nat := 200

  /** The keys `vehicleMeta` can hold. */
  predicate IsMetaKey(k: string) {
    k == "make" || k == "model" || k == "year" || k == "engine"
  }

  /** `m.group(1).strip()[:200]`, the capture coming from the lower-cased page. */
  function MetaValue(capture: string): string {
    Take(Trim(Lower(capture)), MetaValueLimit)
  }

  /** The meta dict after the first `n` labels have been tried. */
  function MetaUpTo(captures: map<string, string>, n: nat): map<string, string>
    requires n <= |MetaLabels|
  {
    if n == 0 then map[]
    else
      var meta := MetaUpTo(captures, n - 1);
      var pageLabel := MetaLabels[n - 1].0;
      var key := MetaLabels[n - 1].1;
      if key in meta || pageLabel !in captures then meta
      else meta[key := MetaValue(captures[pageLabel])]
  }

  /** `_extract_meta_from_page`. */
  function Meta(captures: map<string, string>): map<string, string> {
    MetaUpTo(captures, |MetaLabels|)
  }

  // ---------------------------------------------------------------------------
  // Properties
  // ---------------------------------------------------------------------------

  /** No character of `s` is an upper-case letter. */
  predicate NoUpper(s: string) {
    forall i :: 0 <= i < |s| ==> !IsUpperLetter(s[i])
  }

  lemma MetaValueShape(capture: string)
    ensures |MetaValue(capture)| <= MetaValueLimit
    ensures NoUpper(MetaValue(capture))
  {
    var low := Lower(capture);
    var v := MetaValue(capture);
    TrimIsMiddle(low);
    var i := TrimStart(low);
    var tr := Trim(low);
    forall k | 0 <= k < |v| ensures !IsUpperLetter(v[k]) {
      assert v[k] == tr[k] == low[i + k];
    }
  }

  /** Every key is one of the four English keys; every value is at most 200 lower-case characters. */
  lemma {:induction false} MetaUpToShape(captures: map<string, string>, n: nat)
    requires n <= |MetaLabels|
    ensures forall k :: k in MetaUpTo(captures, n) ==> IsMetaKey(k)
    ensures forall k :: k in MetaUpTo(captures, n) ==>
      |MetaUpTo(captures, n)[k]| <= MetaValueLimit && NoUpper(MetaUpTo(captures, n)[k])
  {
    if n > 0 {
      MetaUpToShape(captures, n - 1);
      var pageLabel := MetaLabels[n - 1].0;
      if pageLabel in captures {
        MetaValueShape(captures[pageLabel]);
      }
    }
  }

  /** A key is present exactly when one of its labels was found among the first `n`. */
  lemma {:induction false} MetaUpToHasKey(captures: map<string, string>, n: nat, key: string)
    requires n <= |MetaLabels|
    ensures key in MetaUpTo(captures, n) <==>
      exists j :: 0 <= j < n && MetaLabels[j].1 == key && MetaLabels[j].0 in captures
  {
    if n > 0 {
      MetaUpToHasKey(captures, n - 1, key);
      if key in MetaUpTo(captures, n - 1) {
        var j :| 0 <= j < n - 1 && MetaLabels[j].1 == key && MetaLabels[j].0 in captures;
        assert 0 <= j < n;
      }
    }
  }

  /**
   * First label wins: the value under a key comes from the first label, in
   * META_LABELS order, that maps to the key and was found on the page.
   */
  lemma {:induction false} MetaUpToFirstLabel(captures: map<string, string>, n: nat, j: nat)
    requires j < n <= |MetaLabels|
    requires MetaLabels[j].0 in captures
    requires forall i :: 0 <= i < j && MetaLabels[i].1 == MetaLabels[j].1 ==> MetaLabels[i].0 !in captures
    ensures MetaLabels[j].1 in MetaUpTo(captures, n)
    ensures MetaUpTo(captures, n)[MetaLabels[j].1] == MetaValue(captures[MetaLabels[j].0])
  {
    var key := MetaLabels[j].1;
    if n - 1 == j {
      MetaUpToHasKey(captures, j, key);
    } else {
      MetaUpToFirstLabel(captures, n - 1, j);
    }
  }

  lemma MetaFirstLabel(captures: map<string, string>, j: nat)
    requires j < |MetaLabels| && MetaLabels[j].0 in captures
    requires forall i :: 0 <= i < j && MetaLabels[i].1 == MetaLabels[j].1 ==> MetaLabels[i].0 !in captures
    ensures MetaLabels[j].1 in Meta(captures)
    ensures Meta(captures)[MetaLabels[j].1] == MetaValue(captures[MetaLabels[j].0])
  {
    MetaUpToFirstLabel(captures, |MetaLabels|, j);
  }

  /** A page giving both "марка" and "make" reports the Russian label's value. */
  lemma RussianLabelFirst(captures: map<string, string>)
    requires "марка" in captures && "make" in captures
    ensures "make" in Meta(captures) && Meta(captures)["make"] == MetaValue(captures["марка"])
  {
    MetaFirstLabel(captures, 0);
  }

  // ---------------------------------------------------------------------------
  // The extractor
  // ---------------------------------------------------------------------------

  /** `_extract_meta_from_page`: the label loop filling the `meta` dict. */
  method ExtractMeta(captures: map<string, string>) returns (meta: map<string, string>)
    ensures meta == Meta(captures)
    ensures forall k :: k in meta ==> IsMetaKey(k) && |meta[k]| <= MetaValueLimit && NoUpper(meta[k])
  {
    MetaUpToShape(captures, |MetaLabels|);
    meta := map[];
    for i := 0 to |MetaLabels|
      invariant meta == MetaUpTo(captures, i)
    {
      var pageLabel, key := MetaLabels[i].0, MetaLabels[i].1;
      if key in meta {
        continue;
      }
      if pageLabel in captures {
        meta := meta[key := Take(Trim(Lower(captures[pageLabel])), MetaValueLimit)];
      }
    }
  }
}
