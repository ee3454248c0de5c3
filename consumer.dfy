/**
 * The response consumer: it announces each request on the local FirePHP
 * console and relays every Wildfire message found in the response headers.
 * Each method is proved to make exactly the console calls the functions of
 * module Dispatch describe.
 */
module Consumers {
  import opened Php
  import opened Wildfire
  import opened FirePhpConsole
  import opened Http
  import opened Dispatch

  class ResponseConsumer {
    /** How relayed messages are prefixed. */
    var remotePrefix: string
    /** The local console messages are relayed to. */
    const client: FirePhp
    /** `json_decode` and `var_export`. */
    const php: Builtins

    constructor (client: FirePhp, php: Builtins)
      ensures remotePrefix == DefaultRemotePrefix
      ensures this.client == client && this.php == php
    {
      remotePrefix := DefaultRemotePrefix;
      this.client := client;
      this.php := php;
    }

    method SetRemotePrefix(prefix: string)
      modifies this
      ensures remotePrefix == prefix
    {
      remotePrefix := prefix;
    }

    /** Publishes the request summary, then relays the response's Wildfire headers. */
    method Run(request: Request, response: Option<Response>, elapsedText: string)
      modifies client
      ensures client.calls == old(client.calls) + [SummaryCall(remotePrefix, request, response, elapsedText)]
        + (if response.Some? then ScanCalls(ProxyOf(remotePrefix, php), response.value.headers) else [])
    {
      PublishRequest(request, response, elapsedText);
      ProxyResponseHeaders(response);
    }

    /** Announces the request as one table on the console. */
    method PublishRequest(request: Request, response: Option<Response>, elapsedText: string)
      modifies client
      ensures client.calls == old(client.calls) + [SummaryCall(remotePrefix, request, response, elapsedText)]
    {
      var responsePreview := if response.Some? then response.value.bodyPreview else "";
      var requestPreview := request.bodyPreview;
      var phrase := if response.Some? then response.value.reasonPhrase else ErrorNoResponse;

      var table: seq<Json> := [];
      table := table + [SummaryRow("Key", "Value")];
      table := table + [SummaryRow("Phrase", phrase)];
      table := table + [SummaryRow("Host", request.host)];
      table := table + [SummaryRow("Protocol", request.scheme)];
      table := table + [SummaryRow("Request", requestPreview)];
      table := table + [SummaryRow("Response", responsePreview)];
      if response.Some? && response.value.effectiveUrl != request.url {
        table := table + [SummaryRow("Effective URL", response.value.effectiveUrl)];
      }

      assert table == SummaryRows(request, response);
      var status := if response.Some? then response.value.statusCode else 0;
      var message := remotePrefix + " <" + request.verb + "> (" + IntToString(status) + ") "
        + request.url + " (" + elapsedText + ")s";
      client.Table(message, table);
    }

    /** Relays each value of each Wildfire header, in order; nothing without a response. */
    method ProxyResponseHeaders(response: Option<Response>)
      modifies client
      ensures client.calls == old(client.calls)
        + (if response.Some? then ScanCalls(ProxyOf(remotePrefix, php), response.value.headers) else [])
    {
      if response.None? {
        return;
      }
      var headers := response.value.headers;
      var i := 0;
      while i < |headers|
        invariant 0 <= i <= |headers|
        invariant client.calls == old(client.calls) + ScanCalls(ProxyOf(remotePrefix, php), headers[..i])
      {
        ProxyHeader(headers[i]);
        ScanStep(ProxyOf(remotePrefix, php), headers, i);
        LogExtended(old(client.calls), ScanCalls(ProxyOf(remotePrefix, php), headers[..i]),
          HeaderCalls(ProxyOf(remotePrefix, php), headers[i]), ScanCalls(ProxyOf(remotePrefix, php), headers[..i + 1]));
        i := i + 1;
      }
      assert headers[..i] == headers;
    }

    /** Relays each value of one header when its name marks it as Wildfire. */
    method ProxyHeader(header: Header)
      modifies client
      ensures client.calls == old(client.calls) + HeaderCalls(ProxyOf(remotePrefix, php), header)
    {
      var values := header.values;
      var isWildfire := IsLineWildfireProtocol(header.name);
      var j := 0;
      while j < |values|
        invariant 0 <= j <= |values|
        invariant client.calls == old(client.calls) + (if isWildfire then ProxyEach(ProxyOf(remotePrefix, php), values[..j]) else [])
      {
        if isWildfire {
          Proxy(values[j]);
          ProxyEachExtended(old(client.calls), ProxyOf(remotePrefix, php), values, j, ProxyCall(remotePrefix, php, values[j]));
        }
        j := j + 1;
      }
      assert values[..j] == values;
    }

    /** Fills every `%key%` of the template, entry by entry, and emits one prefixed warning. */
    method ReportParseError(template: string, context: seq<(string, string)>)
      modifies client
      ensures client.calls == old(client.calls) + [Warn(remotePrefix + " " + FillTemplate(template, context))]
    {
      var filled := template;
      var i := 0;
      while i < |context|
        invariant 0 <= i <= |context|
        invariant FillTemplate(filled, context[i..]) == FillTemplate(template, context)
      {
        var (key, value) := context[i];
        var replacement := "%" + key + "%";
        assert context[i..][1..] == context[i + 1..];
        filled := ReplaceAll(filled, replacement, value);
        i := i + 1;
      }
      client.Warn(remotePrefix + " " + filled);
    }

    /** Relays one Wildfire header value: decode it, then route it on its type. */
    method Proxy(line: string)
      modifies client
      ensures client.calls == old(client.calls) + [ProxyCall(remotePrefix, php, line)]
    {
      match DecodeFrame(line, php.jsonDecode)
      case Err(e) =>
        ReportParseError(Template(e), Context(e));
      case Ok(frame) =>
        ProxyFrame(frame);
    }

    /** Routes a decoded frame on its descriptor's type. */
    method ProxyFrame(frame: Frame)
      requires frame.descriptor.Arr?
      modifies client
      ensures client.calls == old(client.calls) + [DispatchCall(remotePrefix, php, frame)]
    {
      var descriptor, message := frame.descriptor, frame.payload;
      var messageType := Get(descriptor, StrKey("Type"));
      match KindOf(messageType)
      case TableKind =>
        ProxyTable(descriptor, message);
      case TraceKind =>
        ProxyTrace(descriptor, message);
      case Plain(level) =>
        var text := if message.Arr? then php.varExport(message) else StringOf(message);
        var full := remotePrefix + " " + text;
        match level {
          case LogLevel => client.Log(full);
          case InfoLevel => client.Info(full);
          case WarnLevel => client.Warn(full);
          case ErrorLevel => client.Error(full);
        }
      case Unhandled =>
        ReportParseError(ErrorUnhandledType, [("message_type", StringOf(messageType))]);
    }

    /** Relays a TABLE frame: the payload's values become the rows, under the descriptor's label. */
    method ProxyTable(descriptor: Json, message: Json)
      requires descriptor.Arr?
      modifies client
      ensures client.calls == old(client.calls) + [TableCall(remotePrefix, php.varExport, descriptor, message)]
    {
      if !message.Arr? {
        ReportParseError(ErrorTableWrongData, [("message", php.varExport(message))]);
        return;
      }
      var table: seq<Json> := [];
      var i := 0;
      while i < |message.entries|
        invariant 0 <= i <= |message.entries|
        invariant table == Values(message)[..i]
      {
        table := table + [message.entries[i].value];
        i := i + 1;
      }
      assert Values(message)[..i] == Values(message);
      if !IsSet(descriptor, StrKey("Label")) {
        client.Warn(remotePrefix + LabelWarning + php.varExport(descriptor));
        return;
      }
      var tableLabel := Get(descriptor, StrKey("Label"));
      client.Table(remotePrefix + " " + StringOf(tableLabel), table);
    }

    /** Relays a TRACE frame as a File / Line / Instruction table. */
    method ProxyTrace(descriptor: Json, message: Json)
      requires descriptor.Arr?
      modifies client
      ensures client.calls == old(client.calls) + [TraceCall(remotePrefix, php.varExport, message)]
    {
      if !message.Arr? {
        ReportParseError(ErrorTableWrongData, [("message", php.varExport(message))]);
        assert ErrorCall(remotePrefix, TableWrongData(php.varExport(message)))
          == Warn(remotePrefix + " " + FillTemplate(ErrorTableWrongData, [("message", php.varExport(message))]));
        return;
      }
      var table := [TraceHeader];
      var traces := Values(Get(message, StrKey("Trace")));
      var i := 0;
      while i < |traces|
        invariant 0 <= i <= |traces|
        invariant table == [TraceHeader] + TraceRows(traces[..i])
        invariant client.calls == old(client.calls)
      {
        var row := TraceEntryRow(traces[i]);
        TraceRowsStep(traces, i);
        LogExtended([TraceHeader], TraceRows(traces[..i]), [row], TraceRows(traces[..i + 1]));
        table := table + [row];
        i := i + 1;
      }
      assert traces[..i] == traces;
      // `$decoded` is not defined in `_proxyTrace`, so the label never carries a message
      client.Table(remotePrefix + " " + TraceLabel, table);
    }

    /** The row of one trace entry: its file, its line and the call it made. */
    static method TraceEntryRow(trace: Json) returns (row: Json)
      ensures row == TraceRow(trace)
    {
      var file := if IsEmpty(Get(trace, StrKey("file"))) then Str("") else Get(trace, StrKey("file"));
      var line := if IsEmpty(Get(trace, StrKey("line"))) then Str("") else Get(trace, StrKey("line"));
      var traceArgs := if IsEmpty(Get(trace, StrKey("args"))) then [] else Values(Get(trace, StrKey("args")));
      var args := TraceArgTexts(traceArgs);
      var instruction := StringOf(Get(trace, StrKey("class"))) + StringOf(Get(trace, StrKey("type")))
        + StringOf(Get(trace, StrKey("function"))) + "(" + Implode(", ", args) + ")";
      row := List([file, line, Str(instruction)]);
    }

    /** The texts of a call's arguments: 'Array' for an array, the value's text otherwise. */
    static method TraceArgTexts(traceArgs: seq<Json>) returns (args: seq<string>)
      ensures args == ArgTexts(traceArgs)
    {
      args := [];
      var j := 0;
      while j < |traceArgs|
        invariant 0 <= j <= |traceArgs|
        invariant args == ArgTexts(traceArgs[..j])
      {
        ArgTextsStep(traceArgs, j);
        args := args + [if traceArgs[j].Arr? then "Array" else StringOf(traceArgs[j])];
        j := j + 1;
      }
      assert traceArgs[..j] == traceArgs;
    }
  }
}
