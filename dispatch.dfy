/**
 * What the consumer sends to the console: for one decoded frame, for one
 * header value, for all the headers of a response, and for the request
 * summary. Each is a function of the inputs; the imperative consumer in
 * module Consumers is proved to make exactly these calls.
 */
module Dispatch {
  import opened Php
  import opened Wildfire
  import opened FirePhpConsole
  import opened Http

  // ---------------------------------------------------------------------------
  // Routing on the descriptor's Type
  // ---------------------------------------------------------------------------

  /** The console severities a frame can be relayed at. */
  datatype Level = LogLevel | InfoLevel | WarnLevel | ErrorLevel

  /** How the `Type` of a descriptor routes its frame. */
  datatype MessageKind = Plain(level: Level) | TableKind | TraceKind | Unhandled

  // The message-type constants of the FirePHP library, as they travel on the wire.
  const TypeLog := "LOG"
  const TypeInfo := "INFO"
  const TypeWarn := "WARN"
  const TypeError := "ERROR"
  const TypeTable := "TABLE"
  const TypeTrace := "TRACE"

  /** The four types relayed as a plain console message. */
  predicate IsSeverity(t: Json) {
    t == Str(TypeLog) || t == Str(TypeInfo) || t == Str(TypeWarn) || t == Str(TypeError)
  }

  /** The `switch` on the type: an exact match of one of the six type names. */
  function KindOf(t: Json): (k: MessageKind)
    ensures k == TableKind <==> t == Str(TypeTable)
    ensures k == TraceKind <==> t == Str(TypeTrace)
    ensures k.Plain? <==> IsSeverity(t)
    ensures k == Unhandled <==> !IsSeverity(t) && t != Str(TypeTable) && t != Str(TypeTrace)
  {
    if t == Str(TypeTable) then TableKind
    else if t == Str(TypeTrace) then TraceKind
    else if t == Str(TypeWarn) then Plain(WarnLevel)
    else if t == Str(TypeLog) then Plain(LogLevel)
    else if t == Str(TypeInfo) then Plain(InfoLevel)
    else if t == Str(TypeError) then Plain(ErrorLevel)
    else Unhandled
  }

  /** The console call of a severity. */
  function LevelCall(level: Level, text: string): SinkCall {
    match level
    case LogLevel => Log(text)
    case InfoLevel => Info(text)
    case WarnLevel => Warn(text)
    case ErrorLevel => Error(text)
  }

  lemma LowerTypeNames()
    ensures ToLower(TypeLog) == "log" && ToLower(TypeInfo) == "info"
    ensures ToLower(TypeWarn) == "warn" && ToLower(TypeError) == "error"
  {
    assert ToLower(TypeLog) == [LowerChar('L'), LowerChar('O'), LowerChar('G')];
    assert ToLower(TypeInfo) == [LowerChar('I'), LowerChar('N'), LowerChar('F'), LowerChar('O')];
    assert ToLower(TypeWarn) == [LowerChar('W'), LowerChar('A'), LowerChar('R'), LowerChar('N')];
    assert ToLower(TypeError) == [LowerChar('E'), LowerChar('R'), LowerChar('R'), LowerChar('O'), LowerChar('R')];
  }

  /** The console method a severity type goes to is the type in lower case. */
  lemma SeverityMethodName(t: Json, text: string)
    requires IsSeverity(t)
    ensures MethodName(LevelCall(KindOf(t).level, text)) == ToLower(t.s)
    ensures LevelCall(KindOf(t).level, text).text == text
  {
    LowerTypeNames();
  }

  // ---------------------------------------------------------------------------
  // Errors
  // ---------------------------------------------------------------------------

  /** A parse error is reported as one warning: the prefix, a space, the filled template. */
  function ErrorCall(prefix: string, e: ParseError): SinkCall {
    Warn(prefix + " " + FillTemplate(Template(e), Context(e)))
  }

  /** The reported warning is the prefix followed by the error's message with its values in place. */
  lemma ErrorCallDescribes(prefix: string, e: ParseError)
    ensures ErrorCall(prefix, e) == Warn(prefix + " " + Describe(e))
    ensures ErrorCall(prefix, e).text[..|prefix| + 1] == prefix + " "
  {
    FillTemplateDescribes(e);
  }

  // ---------------------------------------------------------------------------
  // Plain messages and tables
  // ---------------------------------------------------------------------------

  /** An array payload is rendered with `var_export`, any other value as PHP converts it to text. */
  function PlainText(varExport: Json -> string, payload: Json): string {
    if payload.Arr? then varExport(payload) else StringOf(payload)
  }

  const LabelWarning := " Unable to read descriptor label: "

  /**
   * A TABLE frame: the payload must be an array and the descriptor must have
   * a `Label`; the rows are the payload's values, in order, keys dropped.
   */
  function TableCall(prefix: string, varExport: Json -> string, descriptor: Json, payload: Json): SinkCall {
    if !payload.Arr? then ErrorCall(prefix, TableWrongData(varExport(payload)))
    else if !IsSet(descriptor, StrKey("Label")) then Warn(prefix + LabelWarning + varExport(descriptor))
    else Table(prefix + " " + StringOf(Get(descriptor, StrKey("Label"))), Values(payload))
  }

  /** The three outcomes of a TABLE frame. */
  lemma TableOutcomes(prefix: string, varExport: Json -> string, descriptor: Json, payload: Json)
    ensures !payload.Arr? ==>
      TableCall(prefix, varExport, descriptor, payload) == Warn(prefix + " " + TableWrongDataHead + varExport(payload))
    ensures payload.Arr? && !IsSet(descriptor, StrKey("Label")) ==>
      TableCall(prefix, varExport, descriptor, payload) == Warn(prefix + LabelWarning + varExport(descriptor))
    ensures TableCall(prefix, varExport, descriptor, payload).Table? <==>
      payload.Arr? && IsSet(descriptor, StrKey("Label"))
  {
    if !payload.Arr? {
      ErrorCallDescribes(prefix, TableWrongData(varExport(payload)));
    }
  }

  /** A table's rows are the payload's values in order, whatever its keys. */
  lemma TableRowsInOrder(prefix: string, varExport: Json -> string, descriptor: Json, payload: Json)
    requires payload.Arr? && IsSet(descriptor, StrKey("Label"))
    ensures var c := TableCall(prefix, varExport, descriptor, payload);
      && c.title == prefix + " " + StringOf(Get(descriptor, StrKey("Label")))
      && |c.rows| == |payload.entries|
      && forall i | 0 <= i < |payload.entries| :: c.rows[i] == payload.entries[i].value
  {
  }

  /** A payload sent as a list comes back as exactly those rows. */
  lemma TableOfList(prefix: string, varExport: Json -> string, descriptor: Json, rows: seq<Json>)
    requires IsSet(descriptor, StrKey("Label"))
    ensures TableCall(prefix, varExport, descriptor, List(rows)).rows == rows
  {
    ValuesOfList(rows);
  }

  // ---------------------------------------------------------------------------
  // Traces
  // ---------------------------------------------------------------------------

  const TraceLabel := "(Trace) "

  /** The first row of a rebuilt trace. */
  const TraceHeader := List([Str("File"), Str("Line"), Str("Instruction")])

  /** An empty `file` or `line` is shown as ''. */
  function Cell(v: Json): Json {
    if IsEmpty(v) then Str("") else v
  }

  /** An array argument is shown as 'Array', any other as PHP converts it to text. */
  function ArgText(arg: Json): string {
    if arg.Arr? then "Array" else StringOf(arg)
  }

  /** The arguments' texts, in order. */
  function ArgTexts(args: seq<Json>): seq<string> {
    seq(|args|, i requires 0 <= i < |args| => ArgText(args[i]))
  }

  /** One more argument converted. */
  lemma ArgTextsStep(args: seq<Json>, j: nat)
    requires j < |args|
    ensures ArgTexts(args[..j + 1]) == ArgTexts(args[..j]) + [ArgText(args[j])]
  {
    var l, r := ArgTexts(args[..j + 1]), ArgTexts(args[..j]) + [ArgText(args[j])];
    forall k | 0 <= k < |l|
      ensures l[k] == r[k]
    {
      assert args[..j + 1][k] == args[k];
    }
  }

  /** The arguments of a trace entry: none when `args` is empty. */
  function TraceArgs(entry: Json): seq<Json> {
    var args := Get(entry, StrKey("args"));
    if IsEmpty(args) then [] else Values(args)
  }

  /** `class . type . function . "(" . join(", ", args) . ")"`. */
  function Instruction(entry: Json): string {
    StringOf(Get(entry, StrKey("class"))) + StringOf(Get(entry, StrKey("type")))
    + StringOf(Get(entry, StrKey("function")))
    + "(" + Implode(", ", ArgTexts(TraceArgs(entry))) + ")"
  }

  /** The row of one trace entry: file, line, instruction. */
  function TraceRow(entry: Json): Json {
    List([Cell(Get(entry, StrKey("file"))), Cell(Get(entry, StrKey("line"))), Str(Instruction(entry))])
  }

  /** The rows of the entries, in order. */
  function TraceRows(entries: seq<Json>): seq<Json> {
    seq(|entries|, i requires 0 <= i < |entries| => TraceRow(entries[i]))
  }

  /** One more entry's row. */
  lemma TraceRowsStep(entries: seq<Json>, i: nat)
    requires i < |entries|
    ensures TraceRows(entries[..i + 1]) == TraceRows(entries[..i]) + [TraceRow(entries[i])]
  {
    var l, r := TraceRows(entries[..i + 1]), TraceRows(entries[..i]) + [TraceRow(entries[i])];
    forall k | 0 <= k < |l|
      ensures l[k] == r[k]
    {
      assert entries[..i + 1][k] == entries[k];
    }
  }

  /** The entries `foreach ($message['Trace'] ...)` visits. */
  function TraceEntries(payload: Json): seq<Json> {
    Values(Get(payload, StrKey("Trace")))
  }

  /** A TRACE frame: the payload must be an array; its trace is rebuilt as a table. */
  function TraceCall(prefix: string, varExport: Json -> string, payload: Json): SinkCall {
    if !payload.Arr? then ErrorCall(prefix, TableWrongData(varExport(payload)))
    else Table(prefix + " " + TraceLabel, [TraceHeader] + TraceRows(TraceEntries(payload)))
  }

  /** A TRACE frame whose payload is not an array gives one TABLE_WRONG_DATA warning. */
  lemma TraceRejectsScalar(prefix: string, varExport: Json -> string, payload: Json)
    requires !payload.Arr?
    ensures TraceCall(prefix, varExport, payload) == Warn(prefix + " " + TableWrongDataHead + varExport(payload))
  {
    ErrorCallDescribes(prefix, TableWrongData(varExport(payload)));
  }

  /**
   * A trace of N entries becomes one table of N+1 rows, headed by
   * File / Line / Instruction; the label is always `(Trace) `.
   */
  lemma TraceShape(prefix: string, varExport: Json -> string, payload: Json)
    requires payload.Arr?
    ensures TraceCall(prefix, varExport, payload).Table?
    ensures TraceCall(prefix, varExport, payload).title == prefix + " " + TraceLabel
    ensures |TraceCall(prefix, varExport, payload).rows| == |TraceEntries(payload)| + 1
    ensures TraceCall(prefix, varExport, payload).rows[0] == TraceHeader
  {
  }

  /** Row `i + 1` of a rebuilt trace is the row of entry `i`: entries keep their order. */
  lemma TraceRowsInOrder(prefix: string, varExport: Json -> string, payload: Json, i: nat)
    requires payload.Arr? && i < |TraceEntries(payload)|
    ensures TraceCall(prefix, varExport, payload).rows[i + 1] == TraceRow(TraceEntries(payload)[i])
  {
    var rows := TraceRows(TraceEntries(payload));
    assert TraceCall(prefix, varExport, payload).rows == [TraceHeader] + rows;
  }

  /** The cells of an entry's row: an empty file or line becomes ''. */
  lemma TraceRowCells(entry: Json)
    ensures Count(TraceRow(entry)) == 3
    ensures Get(TraceRow(entry), IntKey(0)) == (if IsEmpty(Get(entry, StrKey("file"))) then Str("") else Get(entry, StrKey("file")))
    ensures Get(TraceRow(entry), IntKey(1)) == (if IsEmpty(Get(entry, StrKey("line"))) then Str("") else Get(entry, StrKey("line")))
    ensures Get(TraceRow(entry), IntKey(2)) == Str(Instruction(entry))
  {
    var cells := [Cell(Get(entry, StrKey("file"))), Cell(Get(entry, StrKey("line"))), Str(Instruction(entry))];
    GetList(cells, 0);
    GetList(cells, 1);
    GetList(cells, 2);
  }

  /** What an array argument holds does not reach the instruction. */
  lemma ArgTextsIgnoreArrays(args: seq<Json>, args2: seq<Json>)
    requires |args| == |args2|
    requires forall i | 0 <= i < |args| :: args[i] == args2[i] || (args[i].Arr? && args2[i].Arr?)
    ensures ArgTexts(args) == ArgTexts(args2)
  {
  }

  /** An entry without arguments (or with empty ones) ends in `()`. */
  lemma InstructionWithoutArgs(entry: Json)
    requires IsEmpty(Get(entry, StrKey("args")))
    ensures Instruction(entry) == StringOf(Get(entry, StrKey("class"))) + StringOf(Get(entry, StrKey("type")))
      + StringOf(Get(entry, StrKey("function"))) + "()"
  {
  }

  // ---------------------------------------------------------------------------
  // One frame, one header value
  // ---------------------------------------------------------------------------

  /** The console call for a decoded frame, by the descriptor's type. */
  function DispatchCall(prefix: string, php: Builtins, frame: Frame): SinkCall {
    var messageType := Get(frame.descriptor, StrKey("Type"));
    match KindOf(messageType)
    case TableKind => TableCall(prefix, php.varExport, frame.descriptor, frame.payload)
    case TraceKind => TraceCall(prefix, php.varExport, frame.payload)
    case Plain(level) => LevelCall(level, prefix + " " + PlainText(php.varExport, frame.payload))
    case Unhandled => ErrorCall(prefix, UnhandledType(StringOf(messageType)))
  }

  /**
   * A severity frame gives one call of the lower-cased type's method, with
   * the prefix, a space and the payload as text.
   */
  lemma DispatchPlain(prefix: string, php: Builtins, frame: Frame)
    requires IsSeverity(Get(frame.descriptor, StrKey("Type")))
    ensures MethodName(DispatchCall(prefix, php, frame)) == ToLower(Get(frame.descriptor, StrKey("Type")).s)
    ensures DispatchCall(prefix, php, frame).text == prefix + " " + PlainText(php.varExport, frame.payload)
  {
    SeverityMethodName(Get(frame.descriptor, StrKey("Type")), prefix + " " + PlainText(php.varExport, frame.payload));
  }

  /** Any other type is reported as unhandled, naming the type. */
  lemma DispatchUnhandled(prefix: string, php: Builtins, frame: Frame)
    requires KindOf(Get(frame.descriptor, StrKey("Type"))) == Unhandled
    ensures DispatchCall(prefix, php, frame)
         == Warn(prefix + " " + UnhandledTypeHead + StringOf(Get(frame.descriptor, StrKey("Type"))))
  {
    ErrorCallDescribes(prefix, UnhandledType(StringOf(Get(frame.descriptor, StrKey("Type")))));
  }

  /** The single console call one Wildfire header value gives rise to. */
  function ProxyCall(prefix: string, php: Builtins, line: string): SinkCall {
    match DecodeFrame(line, php.jsonDecode)
    case Err(e) => ErrorCall(prefix, e)
    case Ok(frame) => DispatchCall(prefix, php, frame)
  }

  /** A value that fails to decode is reported once, as the prefixed message of its error. */
  lemma ProxyReportsDecodeError(prefix: string, php: Builtins, line: string)
    requires DecodeFrame(line, php.jsonDecode).Err?
    ensures ProxyCall(prefix, php, line) == Warn(prefix + " " + Describe(DecodeFrame(line, php.jsonDecode).error))
  {
    ErrorCallDescribes(prefix, DecodeFrame(line, php.jsonDecode).error);
  }

  /** `_proxy` for a given prefix and built-ins, as a value. */
  function ProxyOf(prefix: string, php: Builtins): string -> SinkCall {
    line => ProxyCall(prefix, php, line)
  }

  // ---------------------------------------------------------------------------
  // All the headers of a response
  // ---------------------------------------------------------------------------

  /** The calls for a sequence of header values: `proxy` of each value, in order. */
  function ProxyEach(proxy: string -> SinkCall, values: seq<string>): seq<SinkCall> {
    seq(|values|, i requires 0 <= i < |values| => proxy(values[i]))
  }

  /** The calls for one header: one per value when its name marks it as Wildfire, none otherwise. */
  function HeaderCalls(proxy: string -> SinkCall, h: Header): seq<SinkCall> {
    if IsLineWildfireProtocol(h.name) then ProxyEach(proxy, h.values) else []
  }

  /** The calls for the headers of a response, header by header. */
  function ScanCalls(proxy: string -> SinkCall, headers: seq<Header>): seq<SinkCall> {
    if |headers| == 0 then []
    else ScanCalls(proxy, headers[..|headers| - 1]) + HeaderCalls(proxy, headers[|headers| - 1])
  }

  /** The values of the Wildfire headers, in header order and then value order. */
  function WildfireValues(headers: seq<Header>): seq<string> {
    if |headers| == 0 then []
    else (if IsLineWildfireProtocol(headers[0].name) then headers[0].values else []) + WildfireValues(headers[1..])
  }

  /** Appending the calls of one more step to a log that already holds the earlier ones. */
  lemma LogExtended<T>(log: seq<T>, done: seq<T>, step: seq<T>, next: seq<T>)
    requires next == done + step
    ensures log + done + step == log + next
  {
  }

  /** One more value proxied. */
  lemma ProxyEachStep(proxy: string -> SinkCall, values: seq<string>, j: nat)
    requires j < |values|
    ensures ProxyEach(proxy, values[..j + 1]) == ProxyEach(proxy, values[..j]) + [proxy(values[j])]
  {
    var l, r := ProxyEach(proxy, values[..j + 1]), ProxyEach(proxy, values[..j]) + [proxy(values[j])];
    forall k | 0 <= k < |l|
      ensures l[k] == r[k]
    {
      assert values[..j + 1][k] == values[k];
    }
  }

  /** A log holding the calls for the first `j` values, extended by the call for value `j`. */
  lemma ProxyEachExtended(log: seq<SinkCall>, proxy: string -> SinkCall, values: seq<string>, j: nat, call: SinkCall)
    requires j < |values| && call == proxy(values[j])
    ensures log + ProxyEach(proxy, values[..j]) + [call] == log + ProxyEach(proxy, values[..j + 1])
  {
    ProxyEachStep(proxy, values, j);
    LogExtended(log, ProxyEach(proxy, values[..j]), [call], ProxyEach(proxy, values[..j + 1]));
  }

  /** One more header scanned. */
  lemma ScanStep(proxy: string -> SinkCall, headers: seq<Header>, i: nat)
    requires i < |headers|
    ensures ScanCalls(proxy, headers[..i + 1]) == ScanCalls(proxy, headers[..i]) + HeaderCalls(proxy, headers[i])
  {
    assert headers[..i + 1][..i] == headers[..i];
  }

  lemma ProxyEachAppend(proxy: string -> SinkCall, xs: seq<string>, ys: seq<string>)
    ensures ProxyEach(proxy, xs + ys) == ProxyEach(proxy, xs) + ProxyEach(proxy, ys)
  {
    var l, r := ProxyEach(proxy, xs + ys), ProxyEach(proxy, xs) + ProxyEach(proxy, ys);
    forall i | 0 <= i < |l|
      ensures l[i] == r[i]
    {
      if i < |xs| {
        assert (xs + ys)[i] == xs[i];
      } else {
        assert (xs + ys)[i] == ys[i - |xs|];
      }
    }
  }

  /** Every value relayed comes from a header whose name marks it as Wildfire. */
  lemma {:induction false} WildfireValuesFromWildfireHeaders(headers: seq<Header>)
    ensures forall v | v in WildfireValues(headers) ::
      exists h | h in headers :: IsLineWildfireProtocol(h.name) && v in h.values
  {
    if |headers| > 0 {
      WildfireValuesFromWildfireHeaders(headers[1..]);
      forall v | v in WildfireValues(headers)
        ensures exists h | h in headers :: IsLineWildfireProtocol(h.name) && v in h.values
      {
        var own := if IsLineWildfireProtocol(headers[0].name) then headers[0].values else [];
        assert WildfireValues(headers) == own + WildfireValues(headers[1..]);
        if v in own {
          assert headers[0] in headers;
        } else {
          assert v in WildfireValues(headers[1..]);
          var h :| h in headers[1..] && IsLineWildfireProtocol(h.name) && v in h.values;
          assert h in headers;
        }
      }
    }
  }

  lemma {:induction false} WildfireValuesAppend(xs: seq<Header>, ys: seq<Header>)
    ensures WildfireValues(xs + ys) == WildfireValues(xs) + WildfireValues(ys)
    decreases |xs|
  {
    if |xs| == 0 {
      assert xs + ys == ys;
    } else {
      WildfireValuesAppend(xs[1..], ys);
      assert (xs + ys)[1..] == xs[1..] + ys;
    }
  }

  /**
   * Scanning a response proxies exactly the values of its Wildfire headers,
   * each once, in order: one console call per value.
   */
  lemma {:induction false} ScanProxiesWildfireValues(proxy: string -> SinkCall, headers: seq<Header>)
    ensures ScanCalls(proxy, headers) == ProxyEach(proxy, WildfireValues(headers))
    decreases |headers|
  {
    if |headers| > 0 {
      var init, last := headers[..|headers| - 1], headers[|headers| - 1];
      ScanProxiesWildfireValues(proxy, init);
      assert headers == init + [last];
      WildfireValuesAppend(init, [last]);
      assert WildfireValues([last]) == (if IsLineWildfireProtocol(last.name) then last.values else []) + WildfireValues([]);
      ProxyEachAppend(proxy, WildfireValues(init), WildfireValues([last]));
    }
  }

  /** A header whose name does not contain `X-Wf-` adds no call. */
  lemma ScanIgnoresOtherHeaders(proxy: string -> SinkCall, headers: seq<Header>, h: Header)
    requires !IsLineWildfireProtocol(h.name)
    ensures ScanCalls(proxy, headers + [h]) == ScanCalls(proxy, headers)
  {
    assert (headers + [h])[..|headers|] == headers;
  }

  /** The calls for two runs of headers are the calls for the first, then for the second. */
  lemma ScanAppend(proxy: string -> SinkCall, xs: seq<Header>, ys: seq<Header>)
    ensures ScanCalls(proxy, xs + ys) == ScanCalls(proxy, xs) + ScanCalls(proxy, ys)
  {
    ScanProxiesWildfireValues(proxy, xs + ys);
    ScanProxiesWildfireValues(proxy, xs);
    ScanProxiesWildfireValues(proxy, ys);
    WildfireValuesAppend(xs, ys);
    ProxyEachAppend(proxy, WildfireValues(xs), WildfireValues(ys));
  }

  // ---------------------------------------------------------------------------
  // The request summary
  // ---------------------------------------------------------------------------

  /** One `[name, value]` row of the summary. */
  function SummaryRow(name: string, value: string): Json {
    List([Str(name), Str(value)])
  }

  /** The `Key`/`Value` heading row, then Phrase, Host, Protocol, Request, Response, and Effective URL when it differs. */
  function SummaryRows(request: Request, response: Option<Response>): seq<Json> {
    var phrase := if response.Some? then response.value.reasonPhrase else ErrorNoResponse;
    var responsePreview := if response.Some? then response.value.bodyPreview else "";
    [ SummaryRow("Key", "Value"),
      SummaryRow("Phrase", phrase),
      SummaryRow("Host", request.host),
      SummaryRow("Protocol", request.scheme),
      SummaryRow("Request", request.bodyPreview),
      SummaryRow("Response", responsePreview) ]
    + (if response.Some? && response.value.effectiveUrl != request.url
       then [SummaryRow("Effective URL", response.value.effectiveUrl)]
       else [])
  }

  /** `<prefix> <VERB> (status) url (elapsed)s`, with status 0 when there is no response. */
  function SummaryMessage(prefix: string, request: Request, response: Option<Response>, elapsedText: string): string {
    var status := if response.Some? then response.value.statusCode else 0;
    prefix + " <" + request.verb + "> (" + IntToString(status) + ") " + request.url + " (" + elapsedText + ")s"
  }

  function SummaryCall(prefix: string, request: Request, response: Option<Response>, elapsedText: string): SinkCall {
    Table(SummaryMessage(prefix, request, response, elapsedText), SummaryRows(request, response))
  }

  /**
   * The summary has the six fixed rows in order, and a seventh exactly when
   * there is a response whose effective URL differs from the request URL.
   */
  lemma SummaryShape(request: Request, response: Option<Response>)
    ensures var rows := SummaryRows(request, response);
      && (|rows| == 7 <==> response.Some? && response.value.effectiveUrl != request.url)
      && (|rows| == 6 || |rows| == 7)
      && rows[..6] == [ SummaryRow("Key", "Value"),
                        SummaryRow("Phrase", if response.Some? then response.value.reasonPhrase else ErrorNoResponse),
                        SummaryRow("Host", request.host),
                        SummaryRow("Protocol", request.scheme),
                        SummaryRow("Request", request.bodyPreview),
                        SummaryRow("Response", if response.Some? then response.value.bodyPreview else "") ]
      && (|rows| == 7 ==> rows[6] == SummaryRow("Effective URL", response.value.effectiveUrl))
  {
  }

  /** Without a response the phrase is "No Response", the response preview is empty and the status is 0. */
  lemma SummaryWithoutResponse(prefix: string, request: Request, elapsedText: string)
    ensures SummaryRows(request, None)
         == [ SummaryRow("Key", "Value"), SummaryRow("Phrase", "No Response"), SummaryRow("Host", request.host),
              SummaryRow("Protocol", request.scheme), SummaryRow("Request", request.bodyPreview),
              SummaryRow("Response", "") ]
    ensures SummaryMessage(prefix, request, None, elapsedText)
         == prefix + " <" + request.verb + "> (0) " + request.url + " (" + elapsedText + ")s"
  {
  }

  /** The summary title starts with the prefix and names the verb. */
  lemma SummaryTitle(prefix: string, request: Request, response: Option<Response>, elapsedText: string)
    ensures var m := SummaryMessage(prefix, request, response, elapsedText);
      m[..|prefix| + 2 + |request.verb| + 1] == prefix + " <" + request.verb + ">"
  {
    var m := SummaryMessage(prefix, request, response, elapsedText);
    var status := if response.Some? then response.value.statusCode else 0;
    var head := prefix + " <" + request.verb + ">";
    assert m == head + (" (" + IntToString(status) + ") " + request.url + " (" + elapsedText + ")s");
  }
}
