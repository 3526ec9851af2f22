/**
  The logs-configuration types the scanner builds, and the registry of log
  sources it feeds. The registry's own behaviour (opening and tailing files)
  is not part of this model: it is represented by the log of calls it
  receives, and by the multiset of sources that log leaves live.
 */
module Config {
  /** The configuration type of sources that tail files. */
  const FileType: string := "file"

  datatype LogsConfig = LogsConfig(
    kind: string,
    path: string,
    source: string,
    service: string,
    tags: seq<string>)

  /** A log source: a name and the configuration it is collected with. */
  datatype LogSource = LogSource(name: string, config: LogsConfig)

  /** One call received by the registry. */
  datatype Call = AddCall(source: LogSource) | RemoveCall(source: LogSource)

  /**
    The sources the registry holds after receiving `calls`, counted with
    multiplicity: an addition adds one occurrence, a removal takes away one
    occurrence of the source it names (if there is one).
   */
  function Live(calls: seq<Call>): multiset<LogSource>
    decreases |calls|
  {
    if calls == [] then multiset{}
    else
      var before := Live(calls[..|calls| - 1]);
      match calls[|calls| - 1]
      case AddCall(s) => before + multiset{s}
      case RemoveCall(s) => before - multiset{s}
  }

  /** The registry, as the append-only log of the calls made to it. */
  class LogSources {
    var calls: seq<Call>

    constructor ()
      ensures calls == []
    {
      calls := [];
    }

    method AddSource(source: LogSource)
      modifies this
      ensures calls == old(calls) + [AddCall(source)]
    {
      calls := calls + [AddCall(source)];
    }

    method RemoveSource(source: LogSource)
      modifies this
      ensures calls == old(calls) + [RemoveCall(source)]
    {
      calls := calls + [RemoveCall(source)];
    }
  }
}
