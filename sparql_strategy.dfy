/**
 * How the SPARQL client reads a complete export or a named-graph export:
 * either through the SPARQL 1.1 Graph Store HTTP Protocol (GSP), which names
 * the graph by a query parameter, `default` or `graph=<name>` (section 4.2,
 * "Indirect Graph Identification", of that recommendation), or through a
 * fixed SELECT template over quads. The `No_GSP` feature toggle decides.
 */
module SparqlStrategy {
  import opened Wrappers

  /** The feature toggles; only `No_GSP` matters to the export strategy. */
  datatype FeatureToggle = No_GSP | OtherToggle(name: string)

  type FeatureToggles = set<FeatureToggle>

  /** The request an export issues: `executeGSPExport(target)` or `executeTupleQuery(text)`. */
  datatype Strategy = Gsp(target: string) | TupleQuery(text: string)

  /** What an export reads: everything, or one named graph. */
  datatype ExportTarget = Complete | NamedGraph(name: string)

  const DefaultGraphTarget: string := "default"
  const NamedGraphTargetPrefix: string := "graph="
  const CompleteExportQuery: string := "SELECT * WHERE { GRAPH ?g { ?s ?p ?o } }"
  const NamedGraphQueryPrefix: string := "SELECT * WHERE { GRAPH ?g { ?s ?p ?o } FILTER(?g = <"
  const NamedGraphQuerySuffix: string := ">) .}"

  predicate GspDisabled(toggles: FeatureToggles)
  {
    No_GSP in toggles
  }

  /** The GSP graph parameter for a target; a graph name is spliced in unvalidated. */
  function GspTarget(t: ExportTarget): (target: string)
    ensures t.Complete? ==> target == "default"
    ensures t.NamedGraph? ==>
      |target| == 6 + |t.name| && target[..6] == "graph=" && target[6..] == t.name
  {
    match t
    case Complete => DefaultGraphTarget
    case NamedGraph(n) => NamedGraphTargetPrefix + n
  }

  /** The tuple-query text for a target; a graph name is spliced in unvalidated. */
  function TupleQueryText(t: ExportTarget): (text: string)
    ensures t.Complete? ==> text == "SELECT * WHERE { GRAPH ?g { ?s ?p ?o } }"
    ensures t.NamedGraph? ==>
      var p, s := NamedGraphQueryPrefix, NamedGraphQuerySuffix;
      |text| == |p| + |t.name| + |s| && text[..|p|] == p && text[|text| - |s|..] == s &&
      text[|p|..|text| - |s|] == t.name
  {
    match t
    case Complete => CompleteExportQuery
    case NamedGraph(n) => NamedGraphQueryPrefix + n + NamedGraphQuerySuffix
  }

  /** Reads a GSP graph parameter back as the target it addresses. */
  function ParseGspTarget(target: string): Option<ExportTarget>
  {
    if target == DefaultGraphTarget then Some(Complete)
    else if |NamedGraphTargetPrefix| <= |target| && target[..|NamedGraphTargetPrefix|] == NamedGraphTargetPrefix
    then Some(NamedGraph(target[|NamedGraphTargetPrefix|..]))
    else None
  }

  /** Reads a tuple-query text back as the target it selects, when it is one of the two templates. */
  function ParseTupleQuery(text: string): Option<ExportTarget>
  {
    var p, s := NamedGraphQueryPrefix, NamedGraphQuerySuffix;
    if text == CompleteExportQuery then Some(Complete)
    else if |p| + |s| <= |text| && text[..|p|] == p && text[|text| - |s|..] == s
    then Some(NamedGraph(text[|p|..|text| - |s|]))
    else None
  }

  /** The target a request addresses, read from the request alone. */
  function Addressed(s: Strategy): Option<ExportTarget>
  {
    match s
    case Gsp(target) => ParseGspTarget(target)
    case TupleQuery(text) => ParseTupleQuery(text)
  }

  /** The single request an export of `t` issues: GSP unless `No_GSP` is set. */
  function ExportStrategy(toggles: FeatureToggles, t: ExportTarget): (s: Strategy)
    ensures s.Gsp? <==> !GspDisabled(toggles)
    ensures Addressed(s) == Some(t)
  {
    GspTargetRoundTrip(t);
    TupleQueryRoundTrip(t);
    if GspDisabled(toggles) then TupleQuery(TupleQueryText(t)) else Gsp(GspTarget(t))
  }

  /** `executeCompleteExport`: GSP against `default`, or the all-quads query when `No_GSP` is set. */
  function CompleteExportStrategy(toggles: FeatureToggles): (s: Strategy)
    ensures !GspDisabled(toggles) ==> s == Gsp("default")
    ensures GspDisabled(toggles) ==> s == TupleQuery("SELECT * WHERE { GRAPH ?g { ?s ?p ?o } }")
    ensures Addressed(s) == Some(Complete)
  {
    ExportStrategy(toggles, Complete)
  }

  /** `executeNamedGraphExport`: GSP against `graph=` + name, or the filtered query when `No_GSP` is set. */
  function NamedGraphExportStrategy(toggles: FeatureToggles, name: string): (s: Strategy)
    ensures !GspDisabled(toggles) ==> s == Gsp("graph=" + name)
    ensures GspDisabled(toggles) ==>
      s == TupleQuery("SELECT * WHERE { GRAPH ?g { ?s ?p ?o } FILTER(?g = <" + name + ">) .}")
    ensures Addressed(s) == Some(NamedGraph(name))
  {
    ExportStrategy(toggles, NamedGraph(name))
  }

  /** Every GSP target reads back as the target it was built for. */
  lemma GspTargetRoundTrip(t: ExportTarget)
    ensures ParseGspTarget(GspTarget(t)) == Some(t)
  {
    if t.NamedGraph? {
      var g := GspTarget(t);
      assert g[0] == 'g';
      assert g[..|NamedGraphTargetPrefix|] == NamedGraphTargetPrefix;
      assert g[|NamedGraphTargetPrefix|..] == t.name;
    }
  }

  /** Every GSP parameter that reads back as a target is exactly that target's parameter. */
  lemma GspTargetParseSound(target: string)
    ensures ParseGspTarget(target).Some? ==> GspTarget(ParseGspTarget(target).value) == target
  {
  }

  /** Every tuple-query text reads back as the target it was built for. */
  lemma TupleQueryRoundTrip(t: ExportTarget)
    ensures ParseTupleQuery(TupleQueryText(t)) == Some(t)
  {
  }

  /** Every text that reads back as a target is exactly that target's template. */
  lemma TupleQueryParseSound(text: string)
    ensures ParseTupleQuery(text).Some? ==> TupleQueryText(ParseTupleQuery(text).value) == text
  {
  }

  /** A named-graph GSP target is never the default-graph target, even for a graph called `default`. */
  lemma NamedGraphTargetIsNotDefault(name: string)
    ensures GspTarget(NamedGraph(name)) != DefaultGraphTarget
  {
    GspTargetRoundTrip(NamedGraph(name));
  }

  /** Under the same toggles, different exports never issue the same request. */
  lemma ExportStrategyInjective(toggles: FeatureToggles, a: ExportTarget, b: ExportTarget)
    requires ExportStrategy(toggles, a) == ExportStrategy(toggles, b)
    ensures a == b
  {
  }

  /** The strategy depends on the toggles only through `No_GSP`. */
  lemma StrategyDependsOnlyOnNoGsp(t1: FeatureToggles, t2: FeatureToggles, t: ExportTarget)
    requires (No_GSP in t1) == (No_GSP in t2)
    ensures ExportStrategy(t1, t) == ExportStrategy(t2, t)
  {
  }
}
