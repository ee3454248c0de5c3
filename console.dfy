/**
 * The FirePHP console the consumer writes to. Only its capability matters
 * here: every call it receives is recorded, in order, in `calls`.
 */
module FirePhpConsole {
  import opened Php

  /** One call on the console: a message at a severity, or a table. */
  datatype SinkCall =
    | Log(text: string)
    | Info(text: string)
    | Warn(text: string)
    | Error(text: string)
    | Table(title: string, rows: seq<Json>)

  /** The name of the console method a call goes to. */
  function MethodName(c: SinkCall): string {
    match c
    case Log(_) => "log"
    case Info(_) => "info"
    case Warn(_) => "warn"
    case Error(_) => "error"
    case Table(_, _) => "table"
  }

  class FirePhp {
    var calls: seq<SinkCall>

    constructor ()
      ensures calls == []
    {
      calls := [];
    }

    method Log(text: string)
      modifies this
      ensures calls == old(calls) + [SinkCall.Log(text)]
    {
      calls := calls + [SinkCall.Log(text)];
    }

    method Info(text: string)
      modifies this
      ensures calls == old(calls) + [SinkCall.Info(text)]
    {
      calls := calls + [SinkCall.Info(text)];
    }

    method Warn(text: string)
      modifies this
      ensures calls == old(calls) + [SinkCall.Warn(text)]
    {
      calls := calls + [SinkCall.Warn(text)];
    }

    method Error(text: string)
      modifies this
      ensures calls == old(calls) + [SinkCall.Error(text)]
    {
      calls := calls + [SinkCall.Error(text)];
    }

    method Table(title: string, rows: seq<Json>)
      modifies this
      ensures calls == old(calls) + [SinkCall.Table(title, rows)]
    {
      calls := calls + [SinkCall.Table(title, rows)];
    }
  }
}

/** The parts of a Guzzle request and response the consumer reads. */
module Http {

  /** A response header; a header sent several times carries several values. */
  datatype Header = Header(name: string, values: seq<string>)

  /**
   * `bodyPreview` stands for what reading the body stream up to the preview
   * length returns ('' when there is no body).
   */
  datatype Request = Request(verb: string, url: string, host: string, scheme: string, bodyPreview: string)

  datatype Response = Response(
    statusCode: int,
    reasonPhrase: string,
    effectiveUrl: string,
    headers: seq<Header>,
    bodyPreview: string)
}
