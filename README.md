# Wildfire response consumer — a Dafny model

FireClient carries FirePHP debug output from a remote service back to a local
FirePHP console. The remote side sends its messages in HTTP response headers
(the Wildfire protocol). `ResponseConsumer` does two things with a response:

- It publishes a one-table summary of the request.
- It scans the response headers. Every value of a header whose name contains
  `X-Wf-` is decoded as a frame `<size>|<json>|` and then relayed to the
  console.

Relaying a frame works like this:

1. The size prefix is checked against the body's length.
2. The body is JSON-decoded. It must be a two-element `[descriptor, payload]`
   array whose descriptor has a `Type`.
3. The frame is routed on that type:
   - `LOG`, `INFO`, `WARN` or `ERROR` becomes one plain console message.
   - `TABLE` becomes one table.
   - `TRACE` is rebuilt as a File / Line / Instruction table.
   - Any other type is reported as unhandled.

Every failure is reported as exactly one prefixed `warn`. All but the
missing-`Label` warning of a table are made from an error template whose
`%key%` placeholders are filled in; that one is written out directly.

The project has six modules:

- `Php` (php.dfy) models the PHP built-ins the consumer relies on, on values:
  - `strpos`, `substr`, `(int)`, `trim`, `str_replace`, `strtolower`, `implode`
  - `isset`, `empty`, `count` and string conversion
  - the arrays that `json_decode(..., true)` returns, as a `Json` datatype of
    ordered key/value entries
- `FirePhpConsole` and `Http` (console.dfy) cover the rest:
  - the console is a class that records every call it receives, in order;
  - requests and responses are plain values.
- `Wildfire` (wildfire.dfy) holds the pure part:
  - the header-name test;
  - the error taxonomy and its message templates;
  - template filling;
  - the size-prefix split and check;
  - frame decoding, with the four checks in the source's order.
- `Dispatch` (dispatch.dfy) gives, as functions, the console call or calls for
  each level:
  - a decoded frame;
  - one header value (`ProxyCall`);
  - one header;
  - all the headers of a response (`ScanCalls`);
  - the request summary.
- `Consumers` (consumer.dfy) is the imperative consumer of
  `src/Consumers/ResponseConsumer.php`:
  - a class with the mutable prefix, the console and the two built-ins;
  - its methods loop as the PHP does and append to the console's log;
  - each method is proved to append exactly the calls the `Dispatch`
    functions describe.
- `FireClientConsumers` (fireclient.dfy) models
  `src/FireClient/Consumers/ResponseConsumer.php`. That file repeats the
  decoder of the first one: its lines 80-274 match lines 159-353 of
  `src/Consumers/ResponseConsumer.php`.
  So the model wraps one canonical decoder, and the file's `run(Response)` is
  the header scan alone. The `## Model` rows for the shared decoder cite the
  canonical file.

`json_decode` and `var_export` are not defined here. They are supplied as a
`Builtins` value, and every property holds for any pair of functions supplied.
PHP strings are byte strings; here one `char` stands for one byte, so
`strlen` is the sequence length.

Points where the code behaves differently from what a reader might expect:

- **Trace label.** `_proxyTrace` builds its label from `$decoded[1]['Message']`,
  but `$decoded` is not defined in that function
  (src/Consumers/ResponseConsumer.php:347-351). So the label of a rebuilt
  trace is always `"<prefix> (Trace) "`, and the model produces exactly that.
- **Size prefix.** The size is `(int)` of the text before the first `|`.
  The model reads `(int)` as the value of the text's leading decimal digits,
  or 0 when there are none; what PHP additionally accepts is listed under
  "## Left out" (the `Wildfire.SplitSize` line). A value with no `|` at all
  declares size 0. A digit run above `PHP_INT_MAX`
  (9223372036854775807, the 64-bit value) is read as `PHP_INT_MAX`.
- **Type matching.** The `switch` on the type is modelled as an exact match of
  the six type names. PHP's loose `==` comparison is not modelled.

## Model

| member | source | states |
|---|---|---|
| `Php.LeadingDigits` | src/Consumers/ResponseConsumer.php:199 | the digits `(int)` reads are a prefix of the text, all digits, and not followed by another digit |
| `Php.NatToDecimal` | src/Consumers/ResponseConsumer.php:204 | a size converted to text is a non-empty run of digits with no leading zero |
| `Php.LeadingDigitsOfDigits` | src/Consumers/ResponseConsumer.php:199 | `(int)` reads the whole of a text made only of digits |
| `Php.DecimalValueOfNatToDecimal` | src/Consumers/ResponseConsumer.php:199-204 | reading back the decimal text of `n` gives `n` |
| `Php.IntCast` | src/Consumers/ResponseConsumer.php:199 | `(int)` never exceeds `PHP_INT_MAX` |
| `Php.IntCastOfNatToDecimal` | src/Consumers/ResponseConsumer.php:199 | `(int)` of the decimal text of `n` is `n` again, or `PHP_INT_MAX` when `n` is larger |
| `Php.StrPos` | src/Consumers/ResponseConsumer.php:198 | `strpos` for one character: the index of the first occurrence, or none exactly when the character does not occur |
| `Php.ContainsIff` | src/Consumers/ResponseConsumer.php:161 | `strpos($s, $p) !== false` holds exactly when `p` starts at some position of `s` |
| `Php.ContainsInfix` | src/Consumers/ResponseConsumer.php:161 | a text containing `p` as an infix is found |
| `Php.TrimLeft` | src/Consumers/ResponseConsumer.php:200 | the result is a suffix of the input, every character removed is the trimmed one, and the result does not start with it |
| `Php.TrimRight` | src/Consumers/ResponseConsumer.php:200 | the result is a prefix of the input, every character removed is the trimmed one, and the result does not end with it |
| `Php.Trim` | src/Consumers/ResponseConsumer.php:200 | after `trim($s, '|')` the text neither starts nor ends with `|` |
| `Php.TrimInfix` | src/Consumers/ResponseConsumer.php:200 | `trim` gives an infix `s[a..b]` of its input, and every character it drops before `a` or from `b` on is the trimmed one |
| `Php.TrimWithout` | src/Consumers/ResponseConsumer.php:200 | trimming a character that does not occur changes nothing |
| `Php.TrimFramed` | src/Consumers/ResponseConsumer.php:200 | trimming `c` from `c + s + c` gives back `s` when `s` is not framed by `c` |
| `Php.ReplaceAllSkip` | src/Consumers/ResponseConsumer.php:179 | `str_replace` copies a prefix that holds no first character of the pattern |
| `Php.ReplaceAllWithout` | src/Consumers/ResponseConsumer.php:179 | a text without the pattern's first character is left as it is |
| `Php.ReplaceAllSplice` | src/Consumers/ResponseConsumer.php:179 | the first occurrence of the pattern after such a prefix is replaced, and replacing goes on after it |
| `Php.ToLower` | src/Consumers/ResponseConsumer.php:245 | `strtolower` keeps the length and lower-cases each character in place |
| `Php.LookupFinds` | src/Consumers/ResponseConsumer.php:224 | a key is found exactly when some entry carries it, and the value found is that entry's value |
| `Php.LookupFirst` | src/Consumers/ResponseConsumer.php:224 | the value found for a key is the one of the first entry that carries it |
| `Php.GetList` | src/Consumers/ResponseConsumer.php:216-222 | element `i` of a decoded list is its `i`-th value, and `count` of the list is its length |
| `Php.ValuesOfList` | src/Consumers/ResponseConsumer.php:279-281 | `foreach` over a list visits exactly its elements, in order |
| `Wildfire.WildfireProtocolIff` | src/Consumers/ResponseConsumer.php:159-163 | a header is Wildfire exactly when `X-Wf-` occurs in its name, case-sensitive, at any position |
| `Wildfire.FillTemplateDescribes` | src/Consumers/ResponseConsumer.php:172-185 | filling each error's template with its context entries, in the order the consumer passes them, replaces every placeholder and yields the error's message |
| `Wildfire.FillBadSize` | src/Consumers/ResponseConsumer.php:203-206 | the BAD_SIZE message carries the expected and the actual size, although `actual_size` is replaced first |
| `Wildfire.FillActualSize` | src/Consumers/ResponseConsumer.php:204 | the first pass replaces `%actual_size%` and leaves `%expected_size%` in place |
| `Wildfire.FillExpectedSize` | src/Consumers/ResponseConsumer.php:204 | the second pass replaces `%expected_size%` |
| `Wildfire.UnableToDecodeTemplate` | src/Consumers/ResponseConsumer.php:211-214 | the UNABLE_TO_DECODE message ends with the offending line |
| `Wildfire.WrongDataCountTemplate` | src/Consumers/ResponseConsumer.php:216-219 | the WRONG_DATA_COUNT message ends with the offending line |
| `Wildfire.MissingTypeTemplate` | src/Consumers/ResponseConsumer.php:224-227 | the MISSING_TYPE message ends with the offending line |
| `Wildfire.TableWrongDataTemplate` | src/Consumers/ResponseConsumer.php:272-275 | the TABLE_WRONG_DATA message ends with the exported payload |
| `Wildfire.UnhandledTypeTemplate` | src/Consumers/ResponseConsumer.php:254-256 | the UNHANDLED_TYPE message ends with the type |
| `Wildfire.SplitSize` | src/Consumers/ResponseConsumer.php:198-201 | the body left after the split neither starts nor ends with `|` |
| `Wildfire.SplitSizeAtFirstPipe` | src/Consumers/ResponseConsumer.php:198-201 | with a `|`, the declared size is `(int)` of the text before the first `|`, and the body is the text from that `|` on with only a run of `|` removed at each end |
| `Wildfire.SplitSizeWithoutPipe` | src/Consumers/ResponseConsumer.php:198-200 | a value without `|` declares size 0 and is its own body |
| `Wildfire.DecodeFrame` | src/Consumers/ResponseConsumer.php:198-227 | the result fails with BAD_SIZE exactly when the size differs, carrying both sizes; other failures carry the line; success means the body decoded to a two-element value whose first element has a `Type`, and the frame is its two elements |
| `Wildfire.DecodeFrameChecks` | src/Consumers/ResponseConsumer.php:208-227 | with the size right: UNABLE_TO_DECODE exactly when the body decodes to nothing or null; then WRONG_DATA_COUNT exactly when the count is not 2; then MISSING_TYPE exactly when the first element has no `Type`; otherwise the frame of the two elements |
| `Wildfire.SplitSizeOfFramed` | tests/Consumers/ResponseConsumerTest.php:360-371 | splitting `n\|j\|` recovers `n`, capped at `PHP_INT_MAX`, and `j` when `j` is not framed by pipes |
| `Wildfire.JsonArrayPassesSizeCheck` | tests/Consumers/ResponseConsumerTest.php:360-371 | a value built as `strlen(j)\|j\|` from a JSON array text always passes the size check |
| `Wildfire.DecodeWildfireValue` | tests/Consumers/ResponseConsumerTest.php:360-371 | a built value whose JSON decodes to `[descriptor, payload]` with a `Type` decodes to that frame |
| `Wildfire.BadSizeCarriesBothSizes` | src/Consumers/ResponseConsumer.php:203-206 | a wrong size prefix fails with exactly the declared and the actual size |
| `Wildfire.OversizedPrefixSaturates` | src/Consumers/ResponseConsumer.php:199-206 | a size prefix above `PHP_INT_MAX` is reported as BAD_SIZE with expected size `PHP_INT_MAX` |
| `Wildfire.NoPipeDeclaresZero` | src/Consumers/ResponseConsumer.php:198-206 | a non-empty value without `\|` always fails the size check, declaring 0 |
| `Wildfire.SizeCheckIgnoresDecoder` | src/Consumers/ResponseConsumer.php:203-208 | the size check comes first: a mis-sized value fails the same way whatever the decoder returns |
| `Dispatch.KindOf` | src/Consumers/ResponseConsumer.php:231-258 | TABLE, TRACE, the four severities and everything else are routed apart, each route exactly for its names |
| `Dispatch.LowerTypeNames` | src/Consumers/ResponseConsumer.php:245 | lower-casing LOG, INFO, WARN and ERROR gives the names of the four console methods |
| `Dispatch.SeverityMethodName` | src/Consumers/ResponseConsumer.php:241-251 | a severity type goes to the console method named by the type in lower case, with the text unchanged |
| `Dispatch.ErrorCallDescribes` | src/Consumers/ResponseConsumer.php:172-185 | a parse error is one warning: the prefix, a space, then the error's message |
| `Dispatch.DispatchPlain` | src/Consumers/ResponseConsumer.php:241-252 | a severity frame is one call of the lower-cased method, whose text is `"<prefix> <payload>"` with an array payload exported |
| `Dispatch.DispatchUnhandled` | src/Consumers/ResponseConsumer.php:254-256 | any other type is one UNHANDLED_TYPE warning naming the type |
| `Dispatch.ProxyReportsDecodeError` | src/Consumers/ResponseConsumer.php:203-227 | a value that fails to decode is reported once, as the prefixed message of the first check it fails |
| `Dispatch.TableOutcomes` | src/Consumers/ResponseConsumer.php:267-293 | a table payload that is not an array gives TABLE_WRONG_DATA; a missing `Label` gives the label warning; and there is a table call exactly when the payload is an array and the label is set |
| `Dispatch.TableRowsInOrder` | src/Consumers/ResponseConsumer.php:277-291 | the table is titled `"<prefix> <Label>"` and its rows are the payload's values in order, keys dropped |
| `Dispatch.TableOfList` | src/Consumers/ResponseConsumer.php:279-281 | a payload sent as a list comes back as exactly those rows |
| `Dispatch.TraceRejectsScalar` | src/Consumers/ResponseConsumer.php:308-311 | a trace payload that is not an array gives one TABLE_WRONG_DATA warning |
| `Dispatch.TraceShape` | src/Consumers/ResponseConsumer.php:313-351 | a trace of N entries is one table of N+1 rows, headed File / Line / Instruction and labelled `"<prefix> (Trace) "` |
| `Dispatch.TraceRowsInOrder` | src/Consumers/ResponseConsumer.php:316-345 | row `i + 1` is the row of trace entry `i` |
| `Dispatch.TraceRowCells` | src/Consumers/ResponseConsumer.php:318-343 | each row has three cells: file or `''`, line or `''`, and the instruction |
| `Dispatch.ArgTextsIgnoreArrays` | src/Consumers/ResponseConsumer.php:333-339 | what an array argument holds does not reach the instruction |
| `Dispatch.InstructionWithoutArgs` | src/Consumers/ResponseConsumer.php:326-342 | an entry with empty `args` has the instruction `class . type . function . "()"` |
| `Dispatch.WildfireValuesFromWildfireHeaders` | src/Consumers/ResponseConsumer.php:134-147 | every value relayed comes from a header whose name is Wildfire |
| `Dispatch.ProxyEachAppend` | src/Consumers/ResponseConsumer.php:140-147 | relaying two runs of values gives the calls of the first run, then those of the second |
| `Dispatch.ScanProxiesWildfireValues` | src/Consumers/ResponseConsumer.php:134-149 | the header scan relays exactly the values of the Wildfire headers, each once, header by header and in order within a header |
| `Dispatch.ScanIgnoresOtherHeaders` | src/Consumers/ResponseConsumer.php:143-145 | a header whose name lacks `X-Wf-` adds no call |
| `Dispatch.ScanAppend` | src/Consumers/ResponseConsumer.php:134-149 | scanning two runs of headers gives the calls of the first run, then those of the second |
| `Dispatch.SummaryShape` | src/Consumers/ResponseConsumer.php:99-109 | the summary has the Key, Phrase, Host, Protocol, Request and Response rows in that order, and a seventh Effective URL row exactly when there is a response whose effective URL differs from the request URL |
| `Dispatch.SummaryWithoutResponse` | src/Consumers/ResponseConsumer.php:82-116 | without a response the phrase is `No Response`, the response preview is empty and the status is 0 |
| `Dispatch.SummaryTitle` | src/Consumers/ResponseConsumer.php:116 | the summary title starts with the prefix and the verb in angle brackets |
| `Consumers.ResponseConsumer.constructor` | src/Consumers/ResponseConsumer.php:39-43 | a new consumer writes to the given console, with the prefix `[REMOTE]` |
| `Consumers.ResponseConsumer.SetRemotePrefix` | src/Consumers/ResponseConsumer.php:49-53 | the prefix becomes the given one |
| `Consumers.ResponseConsumer.Run` | src/Consumers/ResponseConsumer.php:62-69 | the summary table comes first, then the calls of the header scan; with no response, only the summary |
| `Consumers.ResponseConsumer.PublishRequest` | src/Consumers/ResponseConsumer.php:79-120 | exactly one table call is appended: the summary message and the summary rows |
| `Consumers.ResponseConsumer.ProxyResponseHeaders` | src/Consumers/ResponseConsumer.php:126-151 | the nested loops append exactly the header scan's calls; with no response, nothing |
| `Consumers.ResponseConsumer.ProxyHeader` | src/Consumers/ResponseConsumer.php:134-147 | one header appends one call per value, in order, when its name is Wildfire, and nothing otherwise |
| `Consumers.ResponseConsumer.ReportParseError` | src/Consumers/ResponseConsumer.php:172-185 | the in-place rewriting loop fills the template entry by entry, then exactly one `warn` with the prefix and a space is appended |
| `Consumers.ResponseConsumer.Proxy` | src/Consumers/ResponseConsumer.php:193-227 | one header value appends exactly one console call, the one `ProxyCall` gives |
| `Consumers.ResponseConsumer.ProxyFrame` | src/Consumers/ResponseConsumer.php:229-258 | a decoded frame appends exactly the one call its type routes to |
| `Consumers.ResponseConsumer.ProxyTable` | src/Consumers/ResponseConsumer.php:267-293 | the row-copying loop appends exactly the one call of `TableCall` |
| `Consumers.ResponseConsumer.ProxyTrace` | src/Consumers/ResponseConsumer.php:300-353 | the row-building loop appends exactly the one call of `TraceCall` |
| `Consumers.ResponseConsumer.TraceEntryRow` | src/Consumers/ResponseConsumer.php:316-343 | the row built for one entry is `TraceRow` of it |
| `Consumers.ResponseConsumer.TraceArgTexts` | src/Consumers/ResponseConsumer.php:331-339 | the argument loop gives `'Array'` for each array argument and the text of any other, in order |
| `FireClientConsumers.ResponseConsumer.constructor` | src/FireClient/Consumers/ResponseConsumer.php:31-35 | a new consumer writes to the given console, with the prefix `[REMOTE]` |
| `FireClientConsumers.ResponseConsumer.SetRemotePrefix` | src/FireClient/Consumers/ResponseConsumer.php:41-45 | the prefix becomes the given one |
| `FireClientConsumers.ResponseConsumer.Run` | src/FireClient/Consumers/ResponseConsumer.php:51-72 | `run` appends exactly the header scan's calls for the response |

## Left out

- Guzzle event wiring (`WildfireSubscriber`) is not modelled. Neither is the
  `EndEvent` that `run` reads its request and response from. The model's `Run`
  takes the request, the response and the elapsed time directly.
- Consumers.ResponseConsumer.constructor: the default console
  (`FirePHP::getInstance(true)`, or `new FirePHP()` in the FireClient copy)
  is ambient state the constructor reaches for when no console is given, so
  the console is always passed in. Only `FirePHP::getInstance(true)`
  (src/Consumers/ResponseConsumer.php:41) is a shared singleton; `new
  FirePHP()` (src/FireClient/Consumers/ResponseConsumer.php:33) builds a
  fresh console.
- `json_decode` and `var_export` are supplied as `Builtins`. Their behaviour,
  and JSON floating-point numbers, are not modelled.
- Consumers.ResponseConsumer.PublishRequest: the body previews are given as
  fields of the request and response, without the stream reads and the
  128-byte preview length. `number_format` and `%f` acting on the elapsed
  time are float formatting, so the elapsed time is an opaque text.
- Consumers.ResponseConsumer.PublishRequest: the effective-URL comparison is
  modelled as string inequality, not PHP's loose `!=`.
- Consumers.ResponseConsumer.ProxyResponseHeaders: a header's values are
  always a sequence, so the `(array)` cast of a scalar header value is not
  modelled.
- Wildfire.SplitSize: the model's `(int)` reads only leading decimal digits.
  PHP also accepts leading whitespace (` 7` is 7), a sign (`-5` is -5) and,
  since PHP 7.1, an exponent in a numeric string (`1e1` is 10). For such a
  prefix the model reports a different declared size than PHP does, for
  instance BAD_SIZE(1, 10) for `1e1|abcdefghij|`, which PHP accepts.
- Dispatch.KindOf: the loose `==` of the `switch` is not modelled. A non-string
  `Type` is unhandled and is reported through its string conversion.
- Wildfire.DecodeFrame: `count` of a decoded scalar is 1, as in PHP 7. PHP 8
  would throw instead.
- Dispatch.TraceRowCells: a trace entry that is not an array reads as null in
  every field. PHP string offsets on a string entry are not modelled.
- Dispatch.TableCall: the `'table'` first argument `_proxyTable` passes is
  dropped. Every table is recorded as `Table(label, rows)`.
- Dispatch.DispatchUnhandled: not every context value is a string.
  `actual_size` and `expected_size` are integers, and `message_type` is
  whatever JSON value `Type` holds, which may be an array. `str_replace`
  converts each such value to text. For a string search with an array
  replacement PHP 7 gives `"Array"` along with a notice, and the model uses
  `StringOf`, which matches this. PHP 8 throws a `TypeError` instead; that is
  not modelled.
- Php.Json: an `Arr` value may carry the same key twice, which no PHP array
  does. On such a value `Count` and `Values` count every entry, while `Get`
  takes the first. Nothing in the model produces such a value, but the
  supplied `json_decode` is not required to avoid it.
- src/FireClient/FirePHPSubscriber.php and src/FireClient/Consumer/Relay.php
  are not part of this model: they are unfinished legacy code. tests/base.php
  is not part of this model either: it is a script that makes a network
  request.
- The FirePHP library's message-type constants are written out as the six
  upper-case names the wire carries. The library itself is not part of this
  model.
