/**
 * The part of the SPARQL client that its unit tests pin down: which single
 * request a complete or named-graph export issues, and that the output
 * writer the target configuration hands out is closed once the export
 * returns. The request goes to an endpoint that is not modelled; it is
 * recorded in the client's request log.
 */
module SparqlClient {
  import opened SparqlStrategy

  /** An output writer; all that is observed of it is how often it was closed. */
  class OutputWriter {
    var closeCount: nat

    /** A new writer has not been closed. */
    constructor ()
      ensures closeCount == 0 && !IsClosed()
    {
      closeCount := 0;
    }

    /** What the tests' `verify(writer, atLeastOnce()).close()` observes. */
    predicate IsClosed()
      reads this
    {
      closeCount > 0
    }

    method Close()
      modifies this
      ensures closeCount == old(closeCount) + 1 && IsClosed()
    {
      closeCount := closeCount + 1;
    }
  }

  /** The target configuration: `createOutputWriter` hands out the export's writer. */
  class RdfTargetConfig {
    const writer: OutputWriter

    constructor (writer: OutputWriter)
      ensures this.writer == writer
    {
      this.writer := writer;
    }

    method CreateOutputWriter() returns (w: OutputWriter)
      ensures w == writer
    {
      w := writer;
    }
  }

  class NeptuneSparqlClient {
    const toggles: FeatureToggles
    /** Every request issued so far, in order. */
    var requests: seq<Strategy>

    constructor (toggles: FeatureToggles)
      ensures this.toggles == toggles && requests == []
    {
      this.toggles := toggles;
      requests := [];
    }

    /** `executeGSPExport`: one GSP request for `target`, then the writer is closed (the model places the close here). */
    method ExecuteGspExport(config: RdfTargetConfig, target: string)
      modifies this, config.writer
      ensures requests == old(requests) + [Gsp(target)]
      ensures config.writer.closeCount == old(config.writer.closeCount) + 1 && config.writer.IsClosed()
    {
      var w := config.CreateOutputWriter();
      requests := requests + [Gsp(target)];
      w.Close();
    }

    /** `executeTupleQuery`: one query request with `text`, then the writer is closed (the model places the close here). */
    method ExecuteTupleQuery(text: string, config: RdfTargetConfig)
      modifies this, config.writer
      ensures requests == old(requests) + [TupleQuery(text)]
      ensures config.writer.closeCount == old(config.writer.closeCount) + 1 && config.writer.IsClosed()
    {
      var w := config.CreateOutputWriter();
      requests := requests + [TupleQuery(text)];
      w.Close();
    }

    /** Issues the request a strategy names. */
    method Execute(s: Strategy, config: RdfTargetConfig)
      modifies this, config.writer
      ensures requests == old(requests) + [s]
      ensures config.writer.closeCount == old(config.writer.closeCount) + 1 && config.writer.IsClosed()
    {
      match s
      case Gsp(target) => ExecuteGspExport(config, target);
      case TupleQuery(text) => ExecuteTupleQuery(text, config);
    }

    /** `executeCompleteExport`: exactly one request, the one the toggles choose, then a closed writer. */
    method ExecuteCompleteExport(config: RdfTargetConfig)
      modifies this, config.writer
      ensures requests == old(requests) + [CompleteExportStrategy(toggles)]
      ensures config.writer.closeCount == old(config.writer.closeCount) + 1 && config.writer.IsClosed()
    {
      Execute(CompleteExportStrategy(toggles), config);
    }

    /** `executeNamedGraphExport`: exactly one request for `name`, then a closed writer. */
    method ExecuteNamedGraphExport(config: RdfTargetConfig, name: string)
      modifies this, config.writer
      ensures requests == old(requests) + [NamedGraphExportStrategy(toggles, name)]
      ensures config.writer.closeCount == old(config.writer.closeCount) + 1 && config.writer.IsClosed()
    {
      Execute(NamedGraphExportStrategy(toggles, name), config);
    }
  }

  /**
   * The complete-export tests: a fresh client and a fresh, unclosed writer;
   * after the export the log holds the one request the toggles call for and
   * the writer has been closed.
   */
  method CompleteExportScenario(toggles: FeatureToggles)
    returns (log: seq<Strategy>, closedBefore: bool, closedAfter: bool)
    ensures !GspDisabled(toggles) ==> log == [Gsp("default")]
    ensures GspDisabled(toggles) ==> log == [TupleQuery("SELECT * WHERE { GRAPH ?g { ?s ?p ?o } }")]
    ensures !closedBefore && closedAfter
  {
    var client := new NeptuneSparqlClient(toggles);
    var writer := new OutputWriter();
    var config := new RdfTargetConfig(writer);
    closedBefore := writer.IsClosed();
    client.ExecuteCompleteExport(config);
    log := client.requests;
    closedAfter := writer.IsClosed();
  }

  /** The named-graph export tests, for any graph name. */
  method NamedGraphExportScenario(toggles: FeatureToggles, name: string)
    returns (log: seq<Strategy>, closedBefore: bool, closedAfter: bool)
    ensures !GspDisabled(toggles) ==> log == [Gsp("graph=" + name)]
    ensures GspDisabled(toggles) ==>
      log == [TupleQuery("SELECT * WHERE { GRAPH ?g { ?s ?p ?o } FILTER(?g = <" + name + ">) .}")]
    ensures !closedBefore && closedAfter
  {
    var client := new NeptuneSparqlClient(toggles);
    var writer := new OutputWriter();
    var config := new RdfTargetConfig(writer);
    closedBefore := writer.IsClosed();
    client.ExecuteNamedGraphExport(config, name);
    log := client.requests;
    closedAfter := writer.IsClosed();
  }
}
