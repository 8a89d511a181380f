/**
 * The `--rdf-export-scope` option group of the RDF export command: it turns
 * the chosen scope, the `--named-graphs` list and the `--sparql` query into
 * the job that performs the export, or into the error the command reports.
 */
module RdfExportScope {
  import opened Wrappers

  /** The three export scopes the option accepts. */
  datatype Scope = Graph | Edges | Query

  /**
   * The jobs the resolver can build. Each carries the scope-specific argument
   * it is constructed with; the client and target configuration that every
   * job also receives are passed through unchanged and are not modelled.
   */
  datatype Job =
    | GraphJob(namedGraphs: seq<string>)
    | EdgesJob
    | QueryJob(query: string)

  /** The three `IllegalStateException`s the resolver can throw. */
  datatype ScopeError =
    | NamedGraphsRequireGraphScope
    | MissingQuery
    | UnknownScope(scope: string)

  /** Value of the scope field when `--rdf-export-scope` is not given. */
  const DefaultScope: Scope := Graph

  /** Value of the named-graph list when `--named-graphs` is not given. */
  const DefaultNamedGraphs: seq<string> := []

  const UnknownScopePrefix: string := "Unknown export scope: "

  /** The enum constant's name, as `scope()` returns it. */
  function ScopeName(s: Scope): (name: string)
    ensures ParseScope(name) == Some(s)
  {
    match s
    case Graph => "graph"
    case Edges => "edges"
    case Query => "query"
  }

  /** The enum's `valueOf`: the constant with the given name, if any. */
  function ParseScope(name: string): Option<Scope>
  {
    if name == "graph" then Some(Graph)
    else if name == "edges" then Some(Edges)
    else if name == "query" then Some(Query)
    else None
  }

  /**
   * The exception message of each error, verbatim. The long messages are
   * written as two literals so that the verifier can see their characters.
   */
  function Message(e: ScopeError): (m: string)
    ensures |m| > 0
    ensures m[0] == (match e
                     case NamedGraphsRequireGraphScope => '`'
                     case MissingQuery => 'Y'
                     case UnknownScope(_) => 'U')
    ensures e.UnknownScope? ==>
      |UnknownScopePrefix| <= |m| && m[|UnknownScopePrefix|..] == e.scope
  {
    match e
    case NamedGraphsRequireGraphScope =>
      "`--named-graphs` can only be used with " + "`--rdf-export-scope graph`"
    case MissingQuery =>
      "You must supply a SPARQL query " + "if exporting from a query"
    case UnknownScope(s) =>
      UnknownScopePrefix + s
  }

  /**
   * `StringUtils.isEmpty` of Apache Commons Lang: true of `null` and of the
   * zero-length string only, so a query of blanks is not empty.
   */
  predicate IsEmpty(q: Option<string>)
  {
    q.None? || |q.value| == 0
  }

  /** The scope a job belongs to. */
  function JobScope(j: Job): Scope
  {
    match j
    case GraphJob(_) => Graph
    case EdgesJob => Edges
    case QueryJob(_) => Query
  }

  /**
   * The order-free statement of which option combinations are valid: the
   * graph scope takes anything; the other two take no named graphs, and the
   * query scope also needs a non-empty query.
   */
  predicate Admissible(scope: Scope, namedGraphs: seq<string>, query: Option<string>)
  {
    scope == Graph || (namedGraphs == [] && (scope == Query ==> !IsEmpty(query)))
  }

  /**
   * `createJob`: the graph scope is tried first, then edges, then query; for
   * the query scope the named-graph check comes before the query check.
   */
  function CreateJob(scope: Scope, namedGraphs: seq<string>, query: Option<string>): (r: Result<Job, ScopeError>)
    ensures r.Ok? <==> Admissible(scope, namedGraphs, query)
    ensures r.Ok? ==> JobScope(r.value) == scope
    ensures r.Ok? && r.value.GraphJob? ==> r.value.namedGraphs == namedGraphs
    ensures r.Ok? && r.value.QueryJob? ==> query == Some(r.value.query)
    ensures r.Err? ==> !r.error.UnknownScope?
    ensures r.Err? && namedGraphs != [] ==> r.error == NamedGraphsRequireGraphScope
    ensures r.Err? && namedGraphs == [] ==> r.error == MissingQuery
  {
    if scope == Graph then
      Ok(GraphJob(namedGraphs))
    else if scope == Edges then
      if |namedGraphs| != 0 then Err(NamedGraphsRequireGraphScope) else Ok(EdgesJob)
    else
      if |namedGraphs| != 0 then Err(NamedGraphsRequireGraphScope)
      else if IsEmpty(query) then Err(MissingQuery)
      else Ok(QueryJob(query.value))
  }

  /** Every name that parses to a scope is that scope's own name. */
  lemma ParseScopeSound(name: string)
    ensures ParseScope(name).Some? ==> ScopeName(ParseScope(name).value) == name
  {
  }

  /** The graph scope never fails and hands the named-graph list on unchanged; a query is ignored. */
  lemma GraphScopeAlwaysSucceeds(namedGraphs: seq<string>, query: Option<string>)
    ensures CreateJob(Graph, namedGraphs, query) == Ok(GraphJob(namedGraphs))
  {
  }

  /** The edges scope: the named-graph error exactly when graphs were named, otherwise an edges job. */
  lemma EdgesScope(namedGraphs: seq<string>, query: Option<string>)
    ensures namedGraphs != [] ==> CreateJob(Edges, namedGraphs, query) == Err(NamedGraphsRequireGraphScope)
    ensures namedGraphs == [] ==> CreateJob(Edges, namedGraphs, query) == Ok(EdgesJob)
  {
  }

  /** The query scope reports named graphs before it looks at the query, whatever the query is. */
  lemma QueryScopeNamedGraphsFirst(namedGraphs: seq<string>, query: Option<string>)
    requires namedGraphs != []
    ensures CreateJob(Query, namedGraphs, query) == Err(NamedGraphsRequireGraphScope)
  {
  }

  /** The query scope without named graphs fails with the missing-query error exactly when the query is null or "". */
  lemma QueryScopeMissingQuery(query: Option<string>)
    ensures CreateJob(Query, [], query) == Err(MissingQuery) <==> (query == None || query == Some(""))
  {
  }

  /** The query scope with a non-empty query builds a query job carrying the text verbatim, blanks included. */
  lemma QueryScopeCarriesQuery(q: string)
    requires |q| > 0
    ensures CreateJob(Query, [], Some(q)) == Ok(QueryJob(q))
  {
  }

  /** The unknown-scope branch is dead: no input reaches it. */
  lemma UnknownScopeUnreachable(scope: Scope, namedGraphs: seq<string>, query: Option<string>, name: string)
    ensures CreateJob(scope, namedGraphs, query) != Err(UnknownScope(name))
  {
  }

  /** With both options left at their defaults, the export is a graph job over no named graphs. */
  lemma DefaultsYieldFullGraphJob(query: Option<string>)
    ensures CreateJob(DefaultScope, DefaultNamedGraphs, query) == Ok(GraphJob([]))
  {
  }

  /** Different errors have different messages, so a message tells which check failed. */
  lemma MessageInjective(a: ScopeError, b: ScopeError)
    requires Message(a) == Message(b)
    ensures a == b
  {
    // Every message is told apart by its first character, except two
    // unknown-scope messages, which share the prefix and differ after it.
    assert Message(a)[0] == Message(b)[0];
    if a.UnknownScope? && b.UnknownScope? {
      assert a.scope == Message(a)[|UnknownScopePrefix|..];
      assert b.scope == Message(b)[|UnknownScopePrefix|..];
    }
  }
}
