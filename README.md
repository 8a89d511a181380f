# RDF export scope resolution and SPARQL export strategy

A Dafny model of two pieces of rule logic in the RDF export path of the
Neptune export tool.

- **Scope resolution** (module `RdfExportScope`). `createJob` turns the
  `--rdf-export-scope` value (`graph`, `edges` or `query`), the
  `--named-graphs` list and the optional `--sparql` query into one of three
  jobs or one of the three `IllegalStateException`s. It is modelled as the
  pure function `CreateJob(scope, namedGraphs, query)`, which returns
  `Result<Job, ScopeError>`. A `null` query is `None`. The checks run in the
  source's order: graph scope first, then edges, then query; the named-graph
  check comes before the query check. Emptiness of the query follows
  `StringUtils.isEmpty`: `null` and `""` are empty, a string of blanks is not.
- **Export strategy** (module `SparqlStrategy`). A complete export and a
  named-graph export each issue a single request. Without the `No_GSP` toggle
  that is a Graph Store Protocol request, addressed by the graph parameter
  `default` or `graph=<name>` (section 4.2, "Indirect Graph Identification",
  of the W3C SPARQL 1.1 Graph Store HTTP Protocol). With the toggle it is a
  tuple query built from a fixed template. The strings are reproduced
  verbatim. Parsers read a request back as the target it addresses. They act
  as the independent partner of the builders: every request reads back as the
  export it was built for, and only a built request reads back at all.
- **Client lifecycle** (module `SparqlClient`). A `NeptuneSparqlClient` class
  logs each request it issues in `requests`. An `OutputWriter` class counts its
  closes. Each export method issues exactly one request and closes the writer
  handed out by `RdfTargetConfig.CreateOutputWriter`. Two scenario methods
  replay the unit tests for every toggle set and every graph name.

The client's own source is not part of this model. The requests it issues
are taken from what `NeptuneSparqlClientTest.java` asserts. Where the tests
are silent, the model decides: which method closes the writer, and how
often (see "## Left out"). The target configuration
follows the test's stub of `createOutputWriter`, which hands out one fixed
writer on every call; the real `createOutputWriter` is not part of this
model either.

## Model

| member | source | states |
|---|---|---|
| `RdfExportScope.CreateJob` | src/main/java/com/amazonaws/services/neptune/cli/RdfExportScopeModule.java:40-58 | success exactly when the combination is admissible (graph scope always; otherwise no named graphs, and for the query scope a non-empty query); a job's scope is the requested one; a graph job carries the list unchanged; a query job carries the query verbatim; a failure with named graphs is the named-graphs error, and without them it is the missing-query error; the unknown-scope error never occurs |
| `RdfExportScope.GraphScopeAlwaysSucceeds` | src/main/java/com/amazonaws/services/neptune/cli/RdfExportScopeModule.java:41-42 | the graph scope always yields a graph job over the given list, whatever the query is |
| `RdfExportScope.EdgesScope` | src/main/java/com/amazonaws/services/neptune/cli/RdfExportScopeModule.java:43-47 | the edges scope gives the named-graphs error exactly when the list is non-empty, and an edges job otherwise |
| `RdfExportScope.QueryScopeNamedGraphsFirst` | src/main/java/com/amazonaws/services/neptune/cli/RdfExportScopeModule.java:48-51 | the query scope with named graphs gives the named-graphs error, even when the query is also missing |
| `RdfExportScope.QueryScopeMissingQuery` | src/main/java/com/amazonaws/services/neptune/cli/RdfExportScopeModule.java:52-54 | with no named graphs, the query scope fails with the missing-query error if and only if the query is null or "" |
| `RdfExportScope.QueryScopeCarriesQuery` | src/main/java/com/amazonaws/services/neptune/cli/RdfExportScopeModule.java:55 | a non-empty query, blanks included, yields a query job carrying that text |
| `RdfExportScope.UnknownScopeUnreachable` | src/main/java/com/amazonaws/services/neptune/cli/RdfExportScopeModule.java:57 | no scope reaches the unknown-scope error |
| `RdfExportScope.DefaultsYieldFullGraphJob` | src/main/java/com/amazonaws/services/neptune/cli/RdfExportScopeModule.java:30-38 | with the default scope and the default empty list, resolution yields a graph job over no named graphs |
| `RdfExportScope.MessageInjective` | src/main/java/com/amazonaws/services/neptune/cli/RdfExportScopeModule.java:44-57 | the three exception messages, with the scope spliced into the unknown-scope one, identify the error uniquely |
| `RdfExportScope.ScopeName` | src/main/java/com/amazonaws/services/neptune/cli/RdfExportScopeModule.java:60-62 | `scope()` returns the constant's name, which parses back to the same constant |
| `RdfExportScope.IsEmpty` | src/main/java/com/amazonaws/services/neptune/cli/RdfExportScopeModule.java:52 | definition of `StringUtils.isEmpty`: null, or a string of length 0; that a query of blanks therefore passes is proved through `CreateJob` by `QueryScopeMissingQuery` and `QueryScopeCarriesQuery` |
| `RdfExportScope.Message` | src/main/java/com/amazonaws/services/neptune/cli/RdfExportScopeModule.java:44-57 | the exception text of each error; each kind starts with its own character, and the unknown-scope message ends with the scope's name verbatim |
| `RdfExportScope.ParseScopeSound` | src/main/java/com/amazonaws/services/neptune/cli/RdfExportScopeModule.java:30 | `ParseScope`, the enum's exact, case-sensitive `valueOf`, accepts only the three constant names, each as its own constant |
| `SparqlStrategy.GspTarget` | src/test/java/com/amazonaws/services/neptune/rdf/NeptuneSparqlClientTest.java:99-123 | the complete export's GSP target is `default`; a named graph's is `graph=` followed by the name verbatim |
| `SparqlStrategy.TupleQueryText` | src/test/java/com/amazonaws/services/neptune/rdf/NeptuneSparqlClientTest.java:111-135 | the complete export's query is `SELECT * WHERE { GRAPH ?g { ?s ?p ?o } }`; a named graph's is the filter prefix, then the name verbatim, then `>) .}` |
| `SparqlStrategy.ExportStrategy` | src/test/java/com/amazonaws/services/neptune/rdf/NeptuneSparqlClientTest.java:92-137 | the request is a GSP request exactly when `No_GSP` is absent, and it addresses exactly the export's target |
| `SparqlStrategy.CompleteExportStrategy` | src/test/java/com/amazonaws/services/neptune/rdf/NeptuneSparqlClientTest.java:97-112 | GSP with target `default` without `No_GSP`; the query `SELECT * WHERE { GRAPH ?g { ?s ?p ?o } }` with it; the request addresses the complete export |
| `SparqlStrategy.NamedGraphExportStrategy` | src/test/java/com/amazonaws/services/neptune/rdf/NeptuneSparqlClientTest.java:121-136 | GSP with target `graph=` + N without `No_GSP`; the query `SELECT * WHERE { GRAPH ?g { ?s ?p ?o } FILTER(?g = <` + N + `>) .}` with it; the request addresses graph N |
| `SparqlStrategy.GspTargetRoundTrip` | src/test/java/com/amazonaws/services/neptune/rdf/NeptuneSparqlClientTest.java:99-123 | every GSP target reads back as the export it was built for |
| `SparqlStrategy.GspTargetParseSound` | src/test/java/com/amazonaws/services/neptune/rdf/NeptuneSparqlClientTest.java:99-123 | every graph parameter that reads back as an export is exactly that export's target |
| `SparqlStrategy.TupleQueryRoundTrip` | src/test/java/com/amazonaws/services/neptune/rdf/NeptuneSparqlClientTest.java:111-135 | every query template reads back as the export it was built for |
| `SparqlStrategy.TupleQueryParseSound` | src/test/java/com/amazonaws/services/neptune/rdf/NeptuneSparqlClientTest.java:111-135 | every query text that reads back as an export is exactly that export's template |
| `SparqlStrategy.NamedGraphTargetIsNotDefault` | src/test/java/com/amazonaws/services/neptune/rdf/NeptuneSparqlClientTest.java:99-123 | a named-graph GSP target never equals `default`, even for a graph named `default` |
| `SparqlStrategy.ExportStrategyInjective` | src/test/java/com/amazonaws/services/neptune/rdf/NeptuneSparqlClientTest.java:117-136 | under the same toggles, two different exports never issue the same request |
| `SparqlStrategy.StrategyDependsOnlyOnNoGsp` | src/test/java/com/amazonaws/services/neptune/rdf/NeptuneSparqlClientTest.java:140-144 | two toggle sets that agree on `No_GSP` choose the same request |
| `SparqlClient.OutputWriter.constructor` | src/test/java/com/amazonaws/services/neptune/rdf/NeptuneSparqlClientTest.java:151-156 | a new writer has a close count of zero and is not closed, as `never()` checks before the export |
| `SparqlClient.OutputWriter.IsClosed` | src/test/java/com/amazonaws/services/neptune/rdf/NeptuneSparqlClientTest.java:156-163 | definition of closed: closed at least once, the condition `atLeastOnce()` checks |
| `SparqlClient.OutputWriter.Close` | src/test/java/com/amazonaws/services/neptune/rdf/NeptuneSparqlClientTest.java:161-163 | each close adds one to the close count, and the writer is closed afterwards |
| `SparqlClient.RdfTargetConfig.CreateOutputWriter` | src/test/java/com/amazonaws/services/neptune/rdf/NeptuneSparqlClientTest.java:151-154 | the configuration hands out its one writer |
| `SparqlClient.NeptuneSparqlClient.constructor` | src/test/java/com/amazonaws/services/neptune/rdf/NeptuneSparqlClientTest.java:140-148 | a new client keeps the given toggles and has issued no request |
| `SparqlClient.NeptuneSparqlClient.ExecuteGspExport` | src/test/java/com/amazonaws/services/neptune/rdf/NeptuneSparqlClientTest.java:99-123 | appends one GSP request for the target to the log, and closes the writer once, so it is closed |
| `SparqlClient.NeptuneSparqlClient.ExecuteTupleQuery` | src/test/java/com/amazonaws/services/neptune/rdf/NeptuneSparqlClientTest.java:105-113 | appends one tuple-query request with the text to the log, and closes the writer once, so it is closed |
| `SparqlClient.NeptuneSparqlClient.ExecuteCompleteExport` | src/test/java/com/amazonaws/services/neptune/rdf/NeptuneSparqlClientTest.java:92-114 | appends exactly the complete-export request the toggles choose and closes the writer once |
| `SparqlClient.NeptuneSparqlClient.ExecuteNamedGraphExport` | src/test/java/com/amazonaws/services/neptune/rdf/NeptuneSparqlClientTest.java:116-138 | appends exactly the named-graph request the toggles choose and closes the writer once |
| `SparqlClient.CompleteExportScenario` | src/test/java/com/amazonaws/services/neptune/rdf/NeptuneSparqlClientTest.java:92-114 | from a fresh client and writer: the log is exactly `[Gsp("default")]` without `No_GSP` and exactly the all-quads query with it, so one request of the chosen kind and none of the other; the writer is unclosed before and closed after |
| `SparqlClient.NamedGraphExportScenario` | src/test/java/com/amazonaws/services/neptune/rdf/NeptuneSparqlClientTest.java:116-138 | the same for a named-graph export of any name: exactly `[Gsp("graph=" + N)]`, or exactly the filtered query; the writer is closed after |

## Left out

- The options and logging set-up of `NeptuneExportBaseCommand.java`: they are command-line fields with validation annotations and a logging property, with no rule logic.
- HTTP and SPARQL transport, endpoint selection (`chooseRepository`) and IAM signing: network plumbing in foreign libraries. A request is a recorded event in `requests`; the endpoint's answer is not modelled.
- Rendering tuple-query rows as N-Triples, literal escaping included (the `executeTupleQuery` output test): rdf4j's RDF writers are outside this model.
- Streaming the GSP response body into the writer: the writer's contents are not modelled, only its close count.
- The bodies of the graph, edges and query jobs: the job classes' bodies are not part of this model, so a job is only the value holding its constructor arguments. The client and target configuration passed to every job are not modelled.
- Validation of named-graph names as IRIs: no code in this model or in `RdfExportScopeModule` validates names, so names are spliced into the strings as they are.
- The Mockito spies and mocks and the loading of the test fixture from disk: test scaffolding.
- `SparqlClient.NeptuneSparqlClient.ExecuteGspExport`, `SparqlClient.NeptuneSparqlClient.ExecuteTupleQuery`, `SparqlClient.NeptuneSparqlClient.ExecuteCompleteExport`, `SparqlClient.NeptuneSparqlClient.ExecuteNamedGraphExport`, `SparqlClient.CompleteExportScenario` and `SparqlClient.NamedGraphExportScenario`: a failing endpoint is not modelled, because neither `RdfExportScopeModule.java` nor `NeptuneSparqlClientTest.java` exercises one: the tests stub only a successful response. The model therefore does not state that the writer is closed after a failed request.
- `SparqlClient.NeptuneSparqlClient.ExecuteGspExport`, `SparqlClient.NeptuneSparqlClient.ExecuteTupleQuery`, `SparqlClient.NeptuneSparqlClient.ExecuteCompleteExport` and `SparqlClient.NeptuneSparqlClient.ExecuteNamedGraphExport` close the writer exactly once. This is the model's choice for a client whose source is not part of this model; the tests support only "at least once" (`atLeastOnce()`), which exactly once implies. The scenario methods use only that the writer ends closed.
- `SparqlClient.NeptuneSparqlClient.ExecuteGspExport` and `SparqlClient.NeptuneSparqlClient.ExecuteTupleQuery`: the model places the close inside these two methods, and the two export methods get it by calling them. That placement is an assumption. The tests check the writer only after `executeCompleteExport` and `executeNamedGraphExport` return, and the one test that calls `executeTupleQuery` directly does not check the close.
