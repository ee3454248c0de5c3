/**
 * The Wildfire frame codec: which headers carry protocol frames, how one
 * header value `<size>|<json>|` is split, size-checked and decoded into a
 * descriptor and a payload, and the parse errors with their message
 * templates.
 */
module Wildfire {
  import opened Php

  const ProtocolPrefix := "X-Wf-"
  const DefaultRemotePrefix := "[REMOTE]"

  // The message templates of the parse errors. Each is written as the text
  // before its first placeholder followed by the rest, so that the text
  // around the placeholders can be named. The further splits inside each
  // head carry no meaning: short literals keep the proofs that a head holds
  // no '%' fast.
  const BadSizeHead := "Body does not " + "match expected " + "size, expected "
  const UnableToDecodeHead := "Unable to decode " + "line payload: "
  const WrongDataCountHead := "Line does not " + "contain expected " + "2 components: "
  const MissingTypeHead := "Line descriptor " + "does not " + "contain type: "
  const TableWrongDataHead := "Table requires " + "an array: "
  const UnhandledTypeHead := "Unhandled message " + "type: "

  const ErrorBadSize := BadSizeHead + "%expected_size%" + " vs actual " + "%actual_size%"
  const ErrorUnableToDecode := UnableToDecodeHead + "%line%"
  const ErrorWrongDataCount := WrongDataCountHead + "%line%"
  const ErrorMissingType := MissingTypeHead + "%line%"
  const ErrorTableWrongData := TableWrongDataHead + "%message%"
  const ErrorUnhandledType := UnhandledTypeHead + "%message_type%"
  const ErrorNoResponse := "No Response"

  /** A header carries Wildfire frames when its name contains `X-Wf-` (case-sensitive). */
  function IsLineWildfireProtocol(name: string): bool {
    Contains(name, ProtocolPrefix)
  }

  /** A header is Wildfire exactly when `X-Wf-` occurs in its name, at any position. */
  lemma WildfireProtocolIff(name: string)
    ensures IsLineWildfireProtocol(name) <==> exists i | 0 <= i <= |name| :: ProtocolPrefix <= name[i..]
  {
    ContainsIff(name, ProtocolPrefix);
  }

  // ---------------------------------------------------------------------------
  // Parse errors and their messages
  // ---------------------------------------------------------------------------

  /** Every way a header value can fail to be proxied, with what its message needs. */
  datatype ParseError =
    | BadSize(expected: nat, actual: nat)
    | UnableToDecode(line: string)
    | WrongDataCount(line: string)
    | MissingType(line: string)
    | TableWrongData(message: string)
    | UnhandledType(messageType: string)

  function Template(e: ParseError): string {
    match e
    case BadSize(_, _) => ErrorBadSize
    case UnableToDecode(_) => ErrorUnableToDecode
    case WrongDataCount(_) => ErrorWrongDataCount
    case MissingType(_) => ErrorMissingType
    case TableWrongData(_) => ErrorTableWrongData
    case UnhandledType(_) => ErrorUnhandledType
  }

  /** The replacements passed with each error, in the order the consumer passes them. */
  function Context(e: ParseError): seq<(string, string)> {
    match e
    case BadSize(expected, actual) =>
      [("actual_size", IntToString(actual)), ("expected_size", IntToString(expected))]
    case UnableToDecode(line) => [("line", line)]
    case WrongDataCount(line) => [("line", line)]
    case MissingType(line) => [("line", line)]
    case TableWrongData(message) => [("message", message)]
    case UnhandledType(messageType) => [("message_type", messageType)]
  }

  function Placeholder(key: string): string {
    "%" + key + "%"
  }

  /** Each context entry in turn replaces every `%key%` of the template by its value. */
  function FillTemplate(template: string, context: seq<(string, string)>): string
    decreases |context|
  {
    if |context| == 0 then template
    else FillTemplate(ReplaceAll(template, Placeholder(context[0].0), context[0].1), context[1..])
  }

  /** The human-readable message of each error, with its values in place. */
  function Describe(e: ParseError): string {
    match e
    case BadSize(expected, actual) =>
      BadSizeHead + NatToDecimal(expected) + " vs actual " + NatToDecimal(actual)
    case UnableToDecode(line) => UnableToDecodeHead + line
    case WrongDataCount(line) => WrongDataCountHead + line
    case MissingType(line) => MissingTypeHead + line
    case TableWrongData(message) => TableWrongDataHead + message
    case UnhandledType(messageType) => UnhandledTypeHead + messageType
  }

  /** A template ending in its only placeholder, with no `%` before it. */
  lemma FillTrailingPlaceholder(template: string, head: string, key: string, value: string)
    requires template == head + Placeholder(key) && '%' !in head
    ensures FillTemplate(template, [(key, value)]) == head + value
  {
    ReplaceAllSplice(head, Placeholder(key), [], value);
    assert head + Placeholder(key) + [] == head + Placeholder(key);
    assert ReplaceAll([], Placeholder(key), value) == [];
  }


  lemma BadSizeHeadFree()
    ensures '%' !in BadSizeHead
  {
    assert '%' !in "Body does not ";
    assert '%' !in "match expected ";
    assert '%' !in "size, expected ";
  }

  lemma BadSizeShape()
    ensures ErrorBadSize == BadSizeHead + Placeholder("expected_size") + " vs actual " + Placeholder("actual_size")
  {
  }

  /** A `%` followed by a `%`-free text that does not start like the wanted key is copied. */
  lemma SkipPercentRun(k: string, u: string, pat: string, rep: string)
    requires '%' !in k && |k| > 0
    requires |pat| >= 2 && pat[0] == '%' && k[0] != pat[1]
    ensures ReplaceAll("%" + (k + u), pat, rep) == "%" + k + ReplaceAll(u, pat, rep)
  {
    var t := "%" + (k + u);
    if |t| >= |pat| {
      assert t[..|pat|][1] != pat[1];
    }
    assert t[1..] == k + u;
    assert ReplaceAll(t, pat, rep) == "%" + ReplaceAll(k + u, pat, rep);
    ReplaceAllSkip(k, u, pat, rep);
  }

  /** The `%k1%mid%k2%` part: only `%k2%` is replaced. */
  lemma ReplaceAfterKey(k1: string, mid: string, k2: string, rep: string)
    requires '%' !in k1 && '%' !in mid
    requires |k1| > 0 && |k2| > 0 && k1[0] != k2[0]
    requires |mid| > 0 && mid[0] != k2[0]
    ensures ReplaceAll("%" + (k1 + ("%" + (mid + Placeholder(k2)))), Placeholder(k2), rep)
         == "%" + k1 + ("%" + mid + rep)
  {
    var p2 := Placeholder(k2);
    SkipPercentRun(k1, "%" + (mid + p2), p2, rep);
    SkipPercentRun(mid, p2, p2, rep);
    ReplaceAllSplice([], p2, [], rep);
    assert [] + p2 + [] == p2;
  }

  /**
   * Replacing the second of two placeholders `%k1%`, `%k2%` (whose keys start
   * differently, separated by a text that does not start like `k2`) leaves the
   * first one in place.
   */
  lemma ReplaceSecondPlaceholder(head: string, k1: string, mid: string, k2: string, rep: string)
    requires '%' !in head && '%' !in k1 && '%' !in mid
    requires |k1| > 0 && |k2| > 0 && k1[0] != k2[0]
    requires |mid| > 0 && mid[0] != k2[0]
    ensures ReplaceAll(head + Placeholder(k1) + mid + Placeholder(k2), Placeholder(k2), rep)
         == head + Placeholder(k1) + mid + rep
  {
    var p2 := Placeholder(k2);
    var t := "%" + (k1 + ("%" + (mid + p2)));
    assert head + Placeholder(k1) + mid + p2 == head + t;
    ReplaceAllSkip(head, t, p2, rep);
    ReplaceAfterKey(k1, mid, k2, rep);
    assert head + ("%" + k1 + ("%" + mid + rep)) == head + Placeholder(k1) + mid + rep;
  }

  /** The first pass replaces `%actual_size%`, skipping over `%expected_size%`. */
  lemma FillActualSize(a: string)
    ensures ReplaceAll(ErrorBadSize, Placeholder("actual_size"), a)
         == BadSizeHead + Placeholder("expected_size") + " vs actual " + a
  {
    BadSizeHeadFree();
    BadSizeShape();
    ReplaceSecondPlaceholder(BadSizeHead, "expected_size", " vs actual ", "actual_size", a);
  }

  /** The only placeholder of a text is replaced and the rest is copied. */
  lemma ReplaceOnlyPlaceholder(head: string, key: string, rest: string, rep: string)
    requires '%' !in head && '%' !in rest
    ensures ReplaceAll(head + Placeholder(key) + rest, Placeholder(key), rep) == head + rep + rest
  {
    ReplaceAllSplice(head, Placeholder(key), rest, rep);
    ReplaceAllWithout(rest, Placeholder(key), rep);
  }

  /** The second pass replaces `%expected_size%`; the inserted digits hold no `%`. */
  lemma FillExpectedSize(e: string, a: string)
    requires '%' !in a
    ensures ReplaceAll(BadSizeHead + Placeholder("expected_size") + " vs actual " + a, Placeholder("expected_size"), e)
         == BadSizeHead + e + " vs actual " + a
  {
    BadSizeHeadFree();
    ReplaceOnlyPlaceholder(BadSizeHead, "expected_size", " vs actual " + a, e);
    assert BadSizeHead + Placeholder("expected_size") + " vs actual " + a
        == BadSizeHead + Placeholder("expected_size") + (" vs actual " + a);
  }

  lemma FillBadSize(expected: nat, actual: nat)
    ensures FillTemplate(ErrorBadSize, Context(BadSize(expected, actual))) == Describe(BadSize(expected, actual))
  {
    var e, a := NatToDecimal(expected), NatToDecimal(actual);
    assert '%' !in a by {
      assert AllDigits(a);
    }
    FillActualSize(a);
    FillExpectedSize(e, a);
    var first := BadSizeHead + Placeholder("expected_size") + " vs actual " + a;
    assert FillTemplate(first, [("expected_size", e)]) == ReplaceAll(first, Placeholder("expected_size"), e);
  }

  lemma UnableToDecodeHeadFree()
    ensures '%' !in UnableToDecodeHead
  {
    assert '%' !in "Unable to decode ";
    assert '%' !in "line payload: ";
  }

  lemma UnableToDecodeTemplate(line: string)
    ensures FillTemplate(ErrorUnableToDecode, [("line", line)]) == Describe(UnableToDecode(line))
  {
    UnableToDecodeHeadFree();
    FillTrailingPlaceholder(ErrorUnableToDecode, UnableToDecodeHead, "line", line);
  }

  lemma WrongDataCountHeadFree()
    ensures '%' !in WrongDataCountHead
  {
    assert '%' !in "Line does not ";
    assert '%' !in "contain expected ";
    assert '%' !in "2 components: ";
  }

  lemma WrongDataCountTemplate(line: string)
    ensures FillTemplate(ErrorWrongDataCount, [("line", line)]) == Describe(WrongDataCount(line))
  {
    WrongDataCountHeadFree();
    FillTrailingPlaceholder(ErrorWrongDataCount, WrongDataCountHead, "line", line);
  }

  lemma MissingTypeHeadFree()
    ensures '%' !in MissingTypeHead
  {
    assert '%' !in "Line descriptor ";
    assert '%' !in "does not ";
    assert '%' !in "contain type: ";
  }

  lemma MissingTypeTemplate(line: string)
    ensures FillTemplate(ErrorMissingType, [("line", line)]) == Describe(MissingType(line))
  {
    MissingTypeHeadFree();
    FillTrailingPlaceholder(ErrorMissingType, MissingTypeHead, "line", line);
  }

  lemma TableWrongDataHeadFree()
    ensures '%' !in TableWrongDataHead
  {
    assert '%' !in "Table requires ";
    assert '%' !in "an array: ";
  }

  lemma TableWrongDataTemplate(message: string)
    ensures FillTemplate(ErrorTableWrongData, [("message", message)]) == Describe(TableWrongData(message))
  {
    TableWrongDataHeadFree();
    FillTrailingPlaceholder(ErrorTableWrongData, TableWrongDataHead, "message", message);
  }

  lemma UnhandledTypeHeadFree()
    ensures '%' !in UnhandledTypeHead
  {
    assert '%' !in "Unhandled message ";
    assert '%' !in "type: ";
  }

  lemma UnhandledTypeTemplate(messageType: string)
    ensures FillTemplate(ErrorUnhandledType, [("message_type", messageType)]) == Describe(UnhandledType(messageType))
  {
    UnhandledTypeHeadFree();
    FillTrailingPlaceholder(ErrorUnhandledType, UnhandledTypeHead, "message_type", messageType);
  }

  /** Filling an error's template with its context gives its human-readable message. */
  lemma FillTemplateDescribes(e: ParseError)
    ensures FillTemplate(Template(e), Context(e)) == Describe(e)
  {
    match e
    case BadSize(expected, actual) => FillBadSize(expected, actual);
    case UnableToDecode(line) => UnableToDecodeTemplate(line);
    case WrongDataCount(line) => WrongDataCountTemplate(line);
    case MissingType(line) => MissingTypeTemplate(line);
    case TableWrongData(message) => TableWrongDataTemplate(message);
    case UnhandledType(messageType) => UnhandledTypeTemplate(messageType);
  }

  // ---------------------------------------------------------------------------
  // Frames
  // ---------------------------------------------------------------------------

  /** The declared size of a header value and the body it frames. */
  datatype SizedBody = SizedBody(expected: nat, body: string)

  /**
   * The size prefix is `(int)` of the text before the first `|` (empty when
   * there is none); the body is the text from that `|` on (the whole value
   * when there is none) with every leading and trailing `|` trimmed.
   */
  function SplitSize(line: string): (r: SizedBody)
    ensures Unframed(r.body, '|')
  {
    match StrPos(line, '|')
    case None =>
      // substr($line, 0, false) is '', whose (int) is 0
      SizedBody(0, Trim(line, '|'))
    case Some(split) =>
      SizedBody(IntCast(line[..split]), Trim(line[split..], '|'))
  }

  /**
   * With a `|`, the size is `(int)` of the text before the first one, and the
   * body is what remains of the text from there on once the runs of `|` at
   * both ends are removed.
   */
  lemma SplitSizeAtFirstPipe(line: string)
    requires '|' in line
    ensures exists p | 0 <= p < |line| ::
      && line[p] == '|' && '|' !in line[..p]
      && SplitSize(line).expected == IntCast(line[..p])
      && TrimmedOf(SplitSize(line).body, line[p..], '|')
  {
    var p := StrPos(line, '|').value;
    TrimInfix(line[p..], '|');
  }

  /** A value without `|` declares size 0 and is its own body. */
  lemma SplitSizeWithoutPipe(line: string)
    requires '|' !in line
    ensures SplitSize(line) == SizedBody(0, line)
  {
    TrimWithout(line, '|');
  }

  /** A decoded frame: the descriptor (which has a `Type`) and the payload. */
  datatype Frame = Frame(descriptor: Json, payload: Json)

  datatype Result<+T, +E> = Ok(value: T) | Err(error: E)

  /**
   * Decodes one header value, failing at the first of: the body is not the
   * declared size; the body does not decode (or decodes to null); the result
   * does not have exactly two elements; the first element has no `Type`.
   */
  function DecodeFrame(line: string, jsonDecode: string -> Option<Json>): (r: Result<Frame, ParseError>)
    ensures r.Err? ==> r.error.BadSize? || r.error in {UnableToDecode(line), WrongDataCount(line), MissingType(line)}
    ensures r.Err? && r.error.BadSize? <==> SplitSize(line).expected != |SplitSize(line).body|
    ensures r.Err? && r.error.BadSize? ==> r.error == BadSize(SplitSize(line).expected, |SplitSize(line).body|)
    ensures r.Ok? ==> r.value.descriptor.Arr? && IsSet(r.value.descriptor, StrKey("Type"))
    ensures r.Ok? ==>
      var body := SplitSize(line).body;
      && jsonDecode(body).Some?
      && Count(jsonDecode(body).value) == 2
      && r.value == Frame(Get(jsonDecode(body).value, IntKey(0)), Get(jsonDecode(body).value, IntKey(1)))
  {
    var sized := SplitSize(line);
    if |sized.body| != sized.expected then
      Err(BadSize(sized.expected, |sized.body|))
    else
      var decoded := jsonDecode(sized.body);
      if decoded.None? || decoded.value == Null then
        Err(UnableToDecode(line))
      else if Count(decoded.value) != 2 then
        Err(WrongDataCount(line))
      else
        var descriptor := Get(decoded.value, IntKey(0));
        if !IsSet(descriptor, StrKey("Type")) then
          Err(MissingType(line))
        else
          Ok(Frame(descriptor, Get(decoded.value, IntKey(1))))
  }

  /**
   * Once the size matches, the three other checks decide in order: no value
   * (or null) is UNABLE_TO_DECODE, then a count other than two is
   * WRONG_DATA_COUNT, then a first element without `Type` is MISSING_TYPE,
   * and a value passing all of them is the frame of its two elements.
   */
  lemma DecodeFrameChecks(line: string, jsonDecode: string -> Option<Json>)
    requires SplitSize(line).expected == |SplitSize(line).body|
    ensures var d := jsonDecode(SplitSize(line).body);
      DecodeFrame(line, jsonDecode) == Err(UnableToDecode(line)) <==> d.None? || d.value == Null
    ensures var d := jsonDecode(SplitSize(line).body);
      d.Some? && d.value != Null ==>
        (DecodeFrame(line, jsonDecode) == Err(WrongDataCount(line)) <==> Count(d.value) != 2)
    ensures var d := jsonDecode(SplitSize(line).body);
      d.Some? && d.value != Null && Count(d.value) == 2 ==>
        (DecodeFrame(line, jsonDecode) == Err(MissingType(line)) <==> !IsSet(Get(d.value, IntKey(0)), StrKey("Type")))
    ensures var d := jsonDecode(SplitSize(line).body);
      d.Some? && d.value != Null && Count(d.value) == 2 && IsSet(Get(d.value, IntKey(0)), StrKey("Type")) ==>
        DecodeFrame(line, jsonDecode) == Ok(Frame(Get(d.value, IntKey(0)), Get(d.value, IntKey(1))))
  {
  }

  /** The header value a Wildfire sender builds for a JSON text `j`: `strlen(j)|j|`. */
  function WildfireValue(j: string): string {
    NatToDecimal(|j|) + "|" + j + "|"
  }

  /** Splitting `n|j|` recovers `n` (capped at `PHP_INT_MAX`) and `j` when `j` is not framed by pipes. */
  lemma SplitSizeOfFramed(n: nat, j: string)
    requires Unframed(j, '|')
    ensures SplitSize(NatToDecimal(n) + "|" + j + "|") == SizedBody(if n <= PhpIntMax then n else PhpIntMax, j)
  {
    var d := NatToDecimal(n);
    var line := d + "|" + j + "|";
    assert line[|d|] == '|';
    assert line[..|d|] == d;
    assert '|' !in d by {
      assert AllDigits(d);
    }
    assert StrPos(line, '|') == Some(|d|);
    assert line[|d|..] == ['|'] + j + ['|'];
    TrimFramed(j, '|');
    IntCastOfNatToDecimal(n);
  }

  /** A value built as `strlen(j)|j|` from a JSON array text always passes the size check. */
  lemma JsonArrayPassesSizeCheck(j: string, jsonDecode: string -> Option<Json>)
    requires |j| >= 2 && j[0] == '[' && j[|j| - 1] == ']' && |j| <= PhpIntMax
    ensures SplitSize(WildfireValue(j)) == SizedBody(|j|, j)
    ensures !(DecodeFrame(WildfireValue(j), jsonDecode).Err? && DecodeFrame(WildfireValue(j), jsonDecode).error.BadSize?)
  {
    SplitSizeOfFramed(|j|, j);
  }

  /** Decoding a built value gives back the descriptor and payload the JSON text holds. */
  lemma DecodeWildfireValue(j: string, jsonDecode: string -> Option<Json>, descriptor: Json, payload: Json)
    requires Unframed(j, '|') && |j| <= PhpIntMax
    requires jsonDecode(j) == Some(List([descriptor, payload]))
    requires IsSet(descriptor, StrKey("Type"))
    ensures DecodeFrame(WildfireValue(j), jsonDecode) == Ok(Frame(descriptor, payload))
  {
    SplitSizeOfFramed(|j|, j);
    GetList([descriptor, payload], 0);
    GetList([descriptor, payload], 1);
  }

  /** A wrong size prefix is reported with exactly the declared and the actual size. */
  lemma BadSizeCarriesBothSizes(n: nat, j: string, jsonDecode: string -> Option<Json>)
    requires Unframed(j, '|') && n != |j| && n <= PhpIntMax
    ensures DecodeFrame(NatToDecimal(n) + "|" + j + "|", jsonDecode) == Err(BadSize(n, |j|))
  {
    SplitSizeOfFramed(n, j);
  }

  /** A size prefix beyond `PHP_INT_MAX` is read as `PHP_INT_MAX`, and that is the size reported. */
  lemma OversizedPrefixSaturates(n: nat, j: string, jsonDecode: string -> Option<Json>)
    requires Unframed(j, '|') && n > PhpIntMax && |j| != PhpIntMax
    ensures DecodeFrame(NatToDecimal(n) + "|" + j + "|", jsonDecode) == Err(BadSize(PhpIntMax, |j|))
  {
    SplitSizeOfFramed(n, j);
  }

  /** A value with no `|` declares size 0, so only the empty value passes the size check. */
  lemma NoPipeDeclaresZero(line: string, jsonDecode: string -> Option<Json>)
    requires '|' !in line && line != []
    ensures DecodeFrame(line, jsonDecode) == Err(BadSize(0, |line|))
  {
    SplitSizeWithoutPipe(line);
  }

  /** The size check comes first: a mis-sized value fails the same way whatever its body decodes to. */
  lemma SizeCheckIgnoresDecoder(line: string, d1: string -> Option<Json>, d2: string -> Option<Json>)
    requires SplitSize(line).expected != |SplitSize(line).body|
    ensures DecodeFrame(line, d1) == DecodeFrame(line, d2)
  {
  }
}
