/**
 * The pure formatting logic of `APILogger` (logger.py) and its request counter.
 *
 * Emitting records (handlers, files, rotation, timestamps) is not modelled; what is
 * modelled is what the logger computes before it emits: the serialised form of each
 * message, the request metadata and counter, masked header lines, truncated body
 * lines, conversation summaries and tool-execution status.
 */
module ApiLogging {
  import opened Wrappers
  import opened Strings
  import opened ToolSchema
  import opened Conversation

  // ---------------------------------------------------------------------------
  // `_serialize_message`
  // ---------------------------------------------------------------------------

  /** A block type other than the three `_serialize_message` knows. */
  type OtherType = t: string | t != "text" && t != "tool_use" && t != "tool_result" witness "thinking"

  /** One element of a list-valued `content`, told apart as `_serialize_message` does. */
  datatype Item =
    | TextObj(text: string)                                              // an SDK block of type "text"
    | ToolUseObj(id: string, name: string, input: map<string, string>)  // an SDK block of type "tool_use"
    | ToolResultObj(toolUseId: Option<string>, content: Option<string>, repr: string)
                                                                         // an SDK block of type "tool_result";
                                                                         // its attributes may be missing
    | OtherTypedObj(typ: OtherType)                                      // an SDK block of any other type
    | DictItem(entries: map<string, string>)                             // a plain dict
    | PlainItem(repr: string)                                            // anything else, as `str` shows it

  /** The value under `content`: a string, a list, or anything else as `str` shows it. */
  datatype LogContent = StrContent(s: string) | ListContent(items: seq<Item>) | OtherContent(repr: string)

  /** A history entry handed to the logger; `None` marks a key the dict does not have. */
  datatype LogMsg =
    | NotADict(repr: string)
    | DictMsg(role: Option<string>, content: Option<LogContent>)

  /** One serialised content element. */
  datatype SItem =
    | SText(text: string)
    | SToolUse(id: string, name: string, input: map<string, string>)
    | SToolResult(toolUseId: string, content: string)
    | SDict(entries: map<string, string>)
    | SStr(s: string)

  datatype SContent = SContentStr(s: string) | SContentList(items: seq<SItem>)

  /** What `_serialize_message` returns. */
  datatype Serialized =
    | ErrorRecord(error: string, value: string)
    | Record(role: Option<string>, content: SContent)

  const Unknown := "unknown"

  /** The serialised form of one list element: none for an unknown block type, one otherwise. */
  function SerializeItem(item: Item): (r: seq<SItem>)
    ensures |r| == 0 <==> item.OtherTypedObj?
    ensures |r| <= 1
    ensures item.TextObj? ==> r == [SText(item.text)]
    ensures item.ToolUseObj? ==> r == [SToolUse(item.id, item.name, item.input)]
    ensures item.ToolResultObj? ==>
              r == [SToolResult(if item.toolUseId.Some? then item.toolUseId.value else Unknown,
                                if item.content.Some? then item.content.value else item.repr)]
    ensures item.DictItem? ==> r == [SDict(item.entries)]
    ensures item.PlainItem? ==> r == [SStr(item.repr)]
  {
    match item
    case TextObj(t) => [SText(t)]
    case ToolUseObj(id, n, input) => [SToolUse(id, n, input)]
    case ToolResultObj(id, c, repr) => [SToolResult(id.GetOr(Unknown), c.GetOr(repr))]
    case OtherTypedObj(_) => []
    case DictItem(d) => [SDict(d)]
    case PlainItem(s) => [SStr(s)]
  }

  /** The serialised list: each element's serialised form, in order. */
  function SerializeItems(items: seq<Item>): seq<SItem>
  {
    if items == [] then []
    else SerializeItems(items[..|items| - 1]) + SerializeItem(items[|items| - 1])
  }

  /** The specification of `_serialize_message`. */
  function Serialize(msg: LogMsg): Serialized
  {
    match msg
    case NotADict(repr) => ErrorRecord("Not a dict", repr)
    case DictMsg(role, content) =>
      Record(role,
        match content
        case Some(StrContent(s)) => SContentStr(s)
        case Some(ListContent(items)) => SContentList(SerializeItems(items))
        case Some(OtherContent(repr)) => SContentStr(repr)
        case None => SContentStr("None"))
  }

  /** `_serialize_message`: builds the serialised content list one element at a time. */
  method SerializeMessage(msg: LogMsg) returns (r: Serialized)
    ensures r == Serialize(msg)
  {
    match msg
    case NotADict(repr) =>
      r := ErrorRecord("Not a dict", repr);
    case DictMsg(role, content) =>
      if content.Some? && content.value.StrContent? {
        r := Record(role, SContentStr(content.value.s));
      } else if content.Some? && content.value.ListContent? {
        var items := content.value.items;
        var out: seq<SItem> := [];
        var i := 0;
        while i < |items|
          invariant 0 <= i <= |items|
          invariant out == SerializeItems(items[..i])
        {
          assert items[..i + 1][..i] == items[..i];
          match items[i] {
            case TextObj(t) => out := out + [SText(t)];
            case ToolUseObj(id, n, input) => out := out + [SToolUse(id, n, input)];
            case ToolResultObj(id, c, repr) =>
              out := out + [SToolResult(if id.Some? then id.value else Unknown, if c.Some? then c.value else repr)];
            case OtherTypedObj(_) =>
            case DictItem(d) => out := out + [SDict(d)];
            case PlainItem(s) => out := out + [SStr(s)];
          }
          i := i + 1;
        }
        assert items[..i] == items;
        r := Record(role, SContentList(out));
      } else if content.Some? {
        r := Record(role, SContentStr(content.value.repr));
      } else {
        r := Record(role, SContentStr("None"));
      }
  }

  /** Serialising a list never lengthens it, and keeps its length exactly when no block type is unknown. */
  lemma {:induction false} SerializeItemsLength(items: seq<Item>)
    ensures |SerializeItems(items)| <= |items|
    ensures |SerializeItems(items)| == |items| <==> forall k :: 0 <= k < |items| ==> !items[k].OtherTypedObj?
  {
    if items != [] {
      var init := items[..|items| - 1];
      SerializeItemsLength(init);
      assert forall k :: 0 <= k < |init| ==> init[k] == items[k];
    }
  }

  /** With no unknown block type, the k-th serialised element is the serialised k-th element. */
  lemma {:induction false} SerializeItemsInOrder(items: seq<Item>)
    requires forall k :: 0 <= k < |items| ==> !items[k].OtherTypedObj?
    ensures |SerializeItems(items)| == |items|
    ensures forall k :: 0 <= k < |items| ==> SerializeItems(items)[k] == SerializeItem(items[k])[0]
  {
    if items != [] {
      var init := items[..|items| - 1];
      SerializeItemsInOrder(init);
      assert forall k :: 0 <= k < |init| ==> init[k] == items[k];
    }
  }

  /** Serialising a list serialises its parts independently: each part keeps its place. */
  lemma {:induction false} SerializeItemsAppend(a: seq<Item>, b: seq<Item>)
    ensures SerializeItems(a + b) == SerializeItems(a) + SerializeItems(b)
    decreases |b|
  {
    if b == [] {
      assert a + b == a;
    } else {
      var init, x := b[..|b| - 1], b[|b| - 1];
      SerializeItemsAppend(a, init);
      assert (a + b)[..|a + b| - 1] == a + init;
      assert (a + b)[|a + b| - 1] == x;
      assert SerializeItems(a + b) == SerializeItems(a + init) + SerializeItem(x);
      assert SerializeItems(b) == SerializeItems(init) + SerializeItem(x);
    }
  }

  /** A block of an unknown type is dropped and the elements around it keep their order. */
  lemma UnknownBlockDropped(a: seq<Item>, t: OtherType, b: seq<Item>)
    ensures SerializeItems(a + [OtherTypedObj(t)] + b) == SerializeItems(a) + SerializeItems(b)
  {
    var u := [OtherTypedObj(t)];
    assert SerializeItems(u) == [] by {
      assert u[..0] == [];
    }
    SerializeItemsAppend(a, u);
    assert SerializeItems(a + u) == SerializeItems(a);
    SerializeItemsAppend(a + u, b);
  }

  /** A message keeps its role and, when it is a string, its content verbatim; a non-dict is reported. */
  lemma SerializeKeepsRoleAndText(msg: LogMsg)
    ensures msg.NotADict? ==> Serialize(msg) == ErrorRecord("Not a dict", msg.repr)
    ensures msg.DictMsg? ==> Serialize(msg).Record? && Serialize(msg).role == msg.role
    ensures msg.DictMsg? && msg.content.Some? && msg.content.value.StrContent? ==>
      Serialize(msg).content == SContentStr(msg.content.value.s)
    ensures msg.DictMsg? && msg.content.Some? && msg.content.value.ListContent? ==>
      Serialize(msg).content.SContentList? &&
      |Serialize(msg).content.items| <= |msg.content.value.items|
  {
    if msg.DictMsg? && msg.content.Some? && msg.content.value.ListContent? {
      SerializeItemsLength(msg.content.value.items);
    }
  }

  // ---------------------------------------------------------------------------
  // Request counter and request metadata (`log_api_request`, `log_api_response`)
  // ---------------------------------------------------------------------------

  /** The metadata block of a logged request (the timestamp is not modelled). */
  datatype RequestMetadata = RequestMetadata(
    requestNumber: nat,
    model: string,
    maxTokens: int,
    numMessages: nat,
    numTools: nat)

  /** The header facts of a logged response. */
  datatype ResponseSummary = ResponseSummary(responseNumber: nat, stopReason: string, numBlocks: nat)

  /** `len(tools) if tools else 0`. */
  function NumTools(tools: Option<seq<Schema>>): nat
  {
    if tools.Some? then |tools.value| else 0
  }

  class ApiLogger {
    /** The number of requests logged so far. */
    var requestCount: nat

    constructor ()
      ensures requestCount == 0
    {
      requestCount := 0;
    }

    /** `log_api_request`: counts the request, then serialises every message of the history. */
    method LogApiRequest(model: string, messages: seq<LogMsg>, tools: Option<seq<Schema>>, maxTokens: Option<int>)
      returns (meta: RequestMetadata, entries: seq<Serialized>)
      modifies this
      ensures requestCount == old(requestCount) + 1
      ensures meta == RequestMetadata(requestCount, model, maxTokens.GetOr(DefaultMaxTokens), |messages|, NumTools(tools))
      ensures |entries| == |messages|
      ensures forall k :: 0 <= k < |messages| ==> entries[k] == Serialize(messages[k])
    {
      requestCount := requestCount + 1;
      meta := RequestMetadata(requestCount, model, maxTokens.GetOr(DefaultMaxTokens), |messages|, NumTools(tools));
      entries := [];
      var i := 0;
      while i < |messages|
        invariant 0 <= i <= |messages|
        invariant requestCount == old(requestCount) + 1
        invariant |entries| == i
        invariant forall k :: 0 <= k < i ==> entries[k] == Serialize(messages[k])
      {
        var e := SerializeMessage(messages[i]);
        entries := entries + [e];
        i := i + 1;
      }
    }

    /** `log_api_response`: reports the number of the request it answers and changes no state. */
    method LogApiResponse(reply: Reply) returns (summary: ResponseSummary)
      ensures summary.responseNumber == requestCount
      ensures summary.stopReason == reply.stopReason && summary.numBlocks == |reply.content|
    {
      summary := ResponseSummary(requestCount, reply.stopReason, |reply.content|);
    }
  }

  // ---------------------------------------------------------------------------
  // Header masking (`log_http_request`, `log_http_response`)
  // ---------------------------------------------------------------------------

  /** Header names whose values are masked, compared after lower-casing. */
  const SensitiveHeaders: seq<string> := ["authorization", "x-api-key", "cookie"]

  predicate Sensitive(key: string)
  {
    ToLower(key) in SensitiveHeaders
  }

  /** The value logged for a request header. */
  function MaskHeaderValue(key: string, value: string): (r: string)
    ensures !Sensitive(key) ==> r == value
    ensures Sensitive(key) && |value| > 4 ==>
      |r| == 15 && r[..11] == "********..." && r[11..] == value[|value| - 4..]
    ensures Sensitive(key) && |value| <= 4 ==> r == "***"
  {
    if Sensitive(key) then
      (if |value| > 4 then "********" + "..." + value[|value| - 4..] else "***")
    else value
  }

  /** One logged header line. */
  function HeaderLine(key: string, value: string): string
  {
    "│  " + key + ": " + value
  }

  /**
   * No secret leaks beyond its last four characters: a masked value depends on
   * nothing else, so two secrets that end alike are logged alike, and secrets of
   * at most four characters are all logged alike.
   */
  lemma MaskRevealsAtMostLastFour(key: string, v1: string, v2: string)
    requires Sensitive(key)
    requires (|v1| <= 4 && |v2| <= 4) || (|v1| > 4 && |v2| > 4 && v1[|v1| - 4..] == v2[|v2| - 4..])
    ensures MaskHeaderValue(key, v1) == MaskHeaderValue(key, v2)
    ensures HeaderLine(key, MaskHeaderValue(key, v1)) == HeaderLine(key, MaskHeaderValue(key, v2))
  {
  }

  /** Other headers pass through unchanged, and header names are compared without regard to case. */
  lemma MaskOnlySensitive(key: string, key': string, value: string)
    requires ToLower(key) == ToLower(key')
    ensures !Sensitive(key) ==> MaskHeaderValue(key, value) == value
    ensures MaskHeaderValue(key, value) == MaskHeaderValue(key', value)
  {
  }

  /** The header lines of a request (`masked`) or of a response (not masked), one per header, in order. */
  method HeaderLines(headers: seq<(string, string)>, masked: bool) returns (lines: seq<string>)
    ensures |lines| == |headers|
    ensures forall k :: 0 <= k < |headers| ==>
      lines[k] == HeaderLine(headers[k].0, if masked then MaskHeaderValue(headers[k].0, headers[k].1) else headers[k].1)
  {
    lines := [];
    var i := 0;
    while i < |headers|
      invariant 0 <= i <= |headers|
      invariant |lines| == i
      invariant forall k :: 0 <= k < i ==>
        lines[k] == HeaderLine(headers[k].0, if masked then MaskHeaderValue(headers[k].0, headers[k].1) else headers[k].1)
    {
      var (key, value) := headers[i];
      if masked {
        value := MaskHeaderValue(key, value);
      }
      lines := lines + [HeaderLine(key, value)];
      i := i + 1;
    }
  }

  // ---------------------------------------------------------------------------
  // Body lines (`log_http_request`, `log_http_response`)
  // ---------------------------------------------------------------------------

  /** The longest non-JSON body logged in full. */
  const BodyLimit := 5000
  const Indent := "   "

  function Indented(ls: seq<string>): (r: seq<string>)
    ensures |r| == |ls| && forall k :: 0 <= k < |ls| ==> r[k] == Indent + ls[k]
  {
    if ls == [] then [] else Indented(ls[..|ls| - 1]) + [Indent + ls[|ls| - 1]]
  }

  /** Removes the indentation the logger puts before each body line. */
  function Unindented(ls: seq<string>): seq<string>
    requires forall k :: 0 <= k < |ls| ==> |ls[k]| >= |Indent|
  {
    seq(|ls|, k requires 0 <= k < |ls| => ls[k][|Indent|..])
  }

  /**
   * The body section of a logged request or response (`kind` is "Request" or
   * "Response"). `json` is the pretty-printed body when it parses as JSON.
   */
  function BodySection(kind: string, body: Option<string>, json: Option<string>): seq<string>
  {
    if body.None? || body.value == "" then ["\n└─ " + kind + " Body", Indent + "(empty)"]
    else
      var b := body.value;
      var header := "\n└─ " + kind + " Body (" + NatToString(|b|) + " bytes)";
      if json.Some? then [header] + Indented(Split(json.value, '\n'))
      else if |b| > BodyLimit then
        [header, Indent + b[..BodyLimit] + "...", Indent + "... (truncated, total " + NatToString(|b|) + " bytes)"]
      else [header] + Indented(Split(b, '\n'))
  }

  /** Builds the body section, indenting the body one line at a time. */
  method BodyLines(kind: string, body: Option<string>, json: Option<string>) returns (lines: seq<string>)
    ensures lines == BodySection(kind, body, json)
  {
    if body.None? || body.value == "" {
      return ["\n└─ " + kind + " Body", Indent + "(empty)"];
    }
    var b := body.value;
    lines := ["\n└─ " + kind + " Body (" + NatToString(|b|) + " bytes)"];
    if json.None? && |b| > BodyLimit {
      lines := lines + [Indent + b[..BodyLimit] + "...", Indent + "... (truncated, total " + NatToString(|b|) + " bytes)"];
      return;
    }
    var text := if json.Some? then json.value else b;
    var parts := Split(text, '\n');
    var i := 0;
    while i < |parts|
      invariant 0 <= i <= |parts|
      invariant |lines| == i + 1
      invariant lines[0] == "\n└─ " + kind + " Body (" + NatToString(|b|) + " bytes)"
      invariant forall k :: 0 <= k < i ==> lines[k + 1] == Indent + parts[k]
    {
      lines := lines + [Indent + parts[i]];
      i := i + 1;
    }
  }

  /** A non-JSON body within the limit is logged without loss: unindenting and joining its lines gives it back. */
  lemma ShortBodyLoggedInFull(kind: string, b: string)
    requires 0 < |b| <= BodyLimit
    ensures var lines := BodySection(kind, Some(b), None);
      |lines| >= 2 &&
      (forall k :: 1 <= k < |lines| ==> |lines[k]| >= |Indent| && lines[k][..|Indent|] == Indent) &&
      Join("\n", Unindented(lines[1..])) == b
  {
    var parts := Split(b, '\n');
    var lines := BodySection(kind, Some(b), None);
    assert lines[1..] == Indented(parts);
    assert Unindented(Indented(parts)) == parts;
    JoinSplit(b, '\n');
  }

  /**
   * A non-JSON body over the limit is logged as its first 5000 characters and its
   * length: two such bodies that agree on those characters and on their length are
   * logged alike, and the logged line carries exactly those characters.
   */
  lemma LongBodyTruncated(kind: string, b1: string, b2: string)
    requires |b1| > BodyLimit && |b1| == |b2| && b1[..BodyLimit] == b2[..BodyLimit]
    ensures BodySection(kind, Some(b1), None) == BodySection(kind, Some(b2), None)
    ensures |BodySection(kind, Some(b1), None)| == 3
    ensures BodySection(kind, Some(b1), None)[1] == Indent + b1[..BodyLimit] + "..."
    ensures BodySection(kind, Some(b1), None)[2] == Indent + "... (truncated, total " + NatToString(|b1|) + " bytes)"
  {
  }

  // ---------------------------------------------------------------------------
  // Conversation summary (`log_conversation_state`)
  // ---------------------------------------------------------------------------

  const SummaryLimit := 100

  /** The one-line summary of a history entry's content; an absent content reads as "". */
  function ContentSummary(content: Option<LogContent>): (r: string)
    ensures content.None? ==> r == ""
    ensures content.Some? && content.value.ListContent? ==>
      r == NatToString(|content.value.items|) + " content blocks"
    ensures content.Some? && content.value.StrContent? ==>
      var s := content.value.s;
      |r| <= SummaryLimit + 3 && (|s| <= SummaryLimit ==> r == s)
    ensures content.Some? && content.value.OtherContent? ==>
      |r| <= SummaryLimit && |r| <= |content.value.repr| && r == content.value.repr[..|r|]
  {
    match content
    case None => ""
    case Some(ListContent(items)) => NatToString(|items|) + " content blocks"
    case Some(StrContent(s)) => if |s| > SummaryLimit then s[..SummaryLimit] + "..." else s
    case Some(OtherContent(repr)) => if |repr| > SummaryLimit then repr[..SummaryLimit] else repr
  }

  /**
   * String content is summarised by at most its first 100 characters: unchanged
   * when it is that short, otherwise cut to 100 characters and marked with "...".
   */
  lemma SummaryTruncates(s: string)
    ensures var r := ContentSummary(Some(StrContent(s)));
      |r| <= SummaryLimit + 3 &&
      (|s| <= SummaryLimit ==> r == s) &&
      (|s| > SummaryLimit ==> |r| == SummaryLimit + 3 && r[..SummaryLimit] == s[..SummaryLimit] && r[SummaryLimit..] == "...")
  {
  }

  // ---------------------------------------------------------------------------
  // Tool-execution status (`log_tool_execution`)
  // ---------------------------------------------------------------------------

  datatype Status = Success | Error

  /** The header label (`SUCCESS`/`ERROR`) and the data label (`success`/`error`) of a status. */
  function StatusLabels(s: Status): (string, string)
  {
    if s == Error then ("ERROR", "error") else ("SUCCESS", "success")
  }

  /** The status as logger.py computes it: Python truthiness takes an empty message for no error. */
  function ExecutionStatusAsWritten(error: Option<string>): (s: Status)
    ensures s == Error <==> error.Some? && error.value != ""
  {
    if error.Some? && error.value != "" then Error else Success
  }

  /** A tool that raised with an empty message is logged as a success. */
  lemma EmptyErrorLoggedAsSuccess()
    ensures ExecutionStatusAsWritten(Some("")) == Success
    ensures StatusLabels(ExecutionStatusAsWritten(Some(""))) == ("SUCCESS", "success")
  {
  }

  /** The status as intended: an error exactly when an error message is supplied, whatever it says. */
  function ExecutionStatus(error: Option<string>): (s: Status)
    ensures s == Error <==> error.Some?
    ensures StatusLabels(s).0 == "ERROR" <==> error.Some?
    ensures StatusLabels(s).1 == "error" <==> error.Some?
  {
    if error.Some? then Error else Success
  }

  /** One tool-execution record: the tool, its status, and its output or error message. */
  datatype ToolLogEntry = ToolLogEntry(toolName: string, status: Status, detail: string)

  /** The record `log_tool_execution` builds for one execution. */
  function ToolExecutionEntry(toolName: string, output: string, error: Option<string>): (e: ToolLogEntry)
    ensures e.toolName == toolName
    ensures e.status == Error <==> error.Some?
    ensures e.detail == if error.Some? then error.value else output
  {
    ToolLogEntry(toolName, ExecutionStatus(error), if error.Some? then error.value else output)
  }
}
