/**
 * The agent orchestrator of chat.py: tool registration, the single-turn call and
 * the bounded tool loop.
 *
 * The model service is an oracle `Llm` from a request to a reply or a failure, a
 * tool is a callable from its arguments to a returned string or a raised message,
 * and the optional continuation predicate is a function of the latest reply.
 */
module Agent {
  import opened Wrappers
  import opened ToolSchema
  import opened Conversation
  import ApiLogging

  // ---------------------------------------------------------------------------
  // Collaborators
  // ---------------------------------------------------------------------------

  /** What calling a tool does: return a value (shown with `str`) or raise with a message. */
  datatype ToolOutcome = Returned(output: string) | Raised(message: string)

  /** A caller-supplied tool: what reflection reads of it, and the callable itself. */
  datatype ToolFunc = ToolFunc(meta: FuncMeta, run: map<string, string> -> ToolOutcome)

  /** What is sent to the model: `tools` is absent when no schema is registered. */
  datatype Request = Request(model: string, maxTokens: int, messages: seq<Message>, tools: Option<seq<Schema>>)

  datatype LlmOutcome = Replied(reply: Reply) | Failed(error: string)

  /** The model service. */
  type Llm = Request -> LlmOutcome

  /** The optional `cont_func` of `toolloop`. */
  type Continue = Reply -> bool

  /** The tools argument of a request: the schemas, or nothing when there are none. */
  function Advertised(schemas: seq<Schema>): (r: Option<seq<Schema>>)
    ensures r.None? <==> schemas == []
    ensures r.Some? ==> r.value == schemas
  {
    if schemas == [] then None else Some(schemas)
  }

  // ---------------------------------------------------------------------------
  // The tool registry (`register_tool`)
  // ---------------------------------------------------------------------------

  /** The name-to-tool map after registering `fs` in order: a later tool of the same name replaces an earlier one. */
  function Registry(fs: seq<ToolFunc>): map<string, ToolFunc>
  {
    if fs == [] then map[]
    else Registry(fs[..|fs| - 1])[fs[|fs| - 1].meta.name := fs[|fs| - 1]]
  }

  /** The schema list after registering `fs` in order: one schema per registration. */
  function SchemasOf(fs: seq<ToolFunc>): seq<Schema>
  {
    if fs == [] then [] else SchemasOf(fs[..|fs| - 1]) + [SchemaOf(fs[|fs| - 1].meta)]
  }

  /** Every registration adds one schema, duplicates included, in registration order. */
  lemma {:induction false} SchemasPerRegistration(fs: seq<ToolFunc>)
    ensures |SchemasOf(fs)| == |fs|
    ensures forall k :: 0 <= k < |fs| ==> SchemasOf(fs)[k] == SchemaOf(fs[k].meta)
  {
    if fs != [] {
      SchemasPerRegistration(fs[..|fs| - 1]);
    }
  }

  /** The registry holds exactly the registered names, each under its own name. */
  lemma {:induction false} RegistryNames(fs: seq<ToolFunc>, n: string)
    ensures n in Registry(fs) <==> exists k :: 0 <= k < |fs| && fs[k].meta.name == n
    ensures n in Registry(fs) ==> Registry(fs)[n].meta.name == n
  {
    if fs != [] {
      var init := fs[..|fs| - 1];
      RegistryNames(init, n);
      if exists k :: 0 <= k < |init| && init[k].meta.name == n {
        var k :| 0 <= k < |init| && init[k].meta.name == n;
        assert fs[k] == init[k];
      }
      if exists k :: 0 <= k < |fs| && fs[k].meta.name == n {
        var k :| 0 <= k < |fs| && fs[k].meta.name == n;
        if k < |init| {
          assert init[k] == fs[k];
        }
      }
    }
  }

  /** The last registration under a name wins. */
  lemma {:induction false} RegistryLastWins(fs: seq<ToolFunc>, k: nat)
    requires k < |fs|
    requires forall j :: k < j < |fs| ==> fs[j].meta.name != fs[k].meta.name
    ensures fs[k].meta.name in Registry(fs) && Registry(fs)[fs[k].meta.name] == fs[k]
  {
    if k < |fs| - 1 {
      var init := fs[..|fs| - 1];
      assert init[k] == fs[k];
      RegistryLastWins(init, k);
    }
  }

  /** Registering two tools under one name keeps one tool but advertises two schemas. */
  lemma DuplicateNameAdvertisedTwice(f: ToolFunc, g: ToolFunc)
    requires f.meta.name == g.meta.name
    ensures |Registry([f, g])| == 1 && Registry([f, g])[f.meta.name] == g
    ensures SchemasOf([f, g]) == [SchemaOf(f.meta), SchemaOf(g.meta)]
  {
    assert [f, g][..1] == [f];
    assert [f][..0] == [];
    assert SchemasOf([f]) == [SchemaOf(f.meta)];
    assert Registry([f]) == map[f.meta.name := f];
    assert Registry([f, g]) == map[f.meta.name := g];
  }

  // ---------------------------------------------------------------------------
  // Answering tool requests
  // ---------------------------------------------------------------------------

  /** The `tool_result` answering one `tool_use` block. */
  function Answer(tools: map<string, ToolFunc>, call: ContentBlock): (r: ContentBlock)
    requires call.ToolUse?
    ensures r.ToolResult? && r.toolUseId == call.id
    ensures call.name !in tools ==> r.content == "Error: Unknown tool " + call.name
    ensures call.name in tools ==>
      match tools[call.name].run(call.input)
      case Returned(out) => r.content == out
      case Raised(msg) => r.content == "Error: " + msg
  {
    if call.name in tools then
      match tools[call.name].run(call.input)
      case Returned(out) => MkToolRes(call.id, out)
      case Raised(msg) => MkToolRes(call.id, "Error: " + msg)
    else MkToolRes(call.id, "Error: Unknown tool " + call.name)
  }

  /** The results for a list of `tool_use` blocks: one per block, in order. */
  function AnswerAll(tools: map<string, ToolFunc>, calls: seq<ContentBlock>): (r: seq<ContentBlock>)
    requires forall k :: 0 <= k < |calls| ==> calls[k].ToolUse?
    ensures |r| == |calls|
    ensures forall k :: 0 <= k < |calls| ==> r[k] == Answer(tools, calls[k])
  {
    if calls == [] then []
    else AnswerAll(tools, calls[..|calls| - 1]) + [Answer(tools, calls[|calls| - 1])]
  }

  /** The results of a round answer every request of the reply, in order, with matching ids. */
  lemma RoundAnswersReply(tools: map<string, ToolFunc>, bs: seq<ContentBlock>)
    ensures Answers(bs, AnswerAll(tools, ToolUses(bs)))
  {
  }

  /** The tool-execution record chat.py logs for one request. */
  function ExecutionLog(tools: map<string, ToolFunc>, call: ContentBlock): (e: ApiLogging.ToolLogEntry)
    requires call.ToolUse?
    ensures e.toolName == call.name
    ensures e.status == ApiLogging.Error <==> call.name !in tools || tools[call.name].run(call.input).Raised?
    ensures call.name !in tools ==> e.detail == "Unknown tool"
    ensures call.name in tools ==>
      match tools[call.name].run(call.input)
      case Returned(out) => e.detail == out
      case Raised(msg) => e.detail == msg
  {
    if call.name in tools then
      match tools[call.name].run(call.input)
      case Returned(out) => ApiLogging.ToolExecutionEntry(call.name, out, None)
      case Raised(msg) => ApiLogging.ToolExecutionEntry(call.name, "None", Some(msg))
    else ApiLogging.ToolExecutionEntry(call.name, "None", Some("Unknown tool"))
  }

  /** Under logger.py's own status rule, a tool raising with an empty message is logged as a success. */
  lemma SilentRaiseLoggedAsSuccessAsWritten(tools: map<string, ToolFunc>, call: ContentBlock)
    requires call.ToolUse? && call.name in tools && tools[call.name].run(call.input) == Raised("")
    ensures ApiLogging.ExecutionStatusAsWritten(Some("")) == ApiLogging.Success
    ensures ExecutionLog(tools, call).status == ApiLogging.Error
  {
  }

  // ---------------------------------------------------------------------------
  // The tool loop, as a function of the conversation
  // ---------------------------------------------------------------------------

  /** What one loop sees of its chat and its caller. */
  datatype Env = Env(model: string, tools: map<string, ToolFunc>, schemas: seq<Schema>, llm: Llm, cont: Option<Continue>)

  /** The history, the replies yielded and the failure, if any, that ended the loop. */
  datatype Run = Run(history: seq<Message>, replies: seq<Reply>, failure: Option<string>)

  /** The request that follows history `h`. */
  function NextRequest(env: Env, h: seq<Message>, maxTokens: int): Request
  {
    Request(env.model, maxTokens, h, Advertised(env.schemas))
  }

  /** A round stops the loop when the continuation predicate says no or the reply asks for no tool. */
  predicate Halts(env: Env, r: Reply)
  {
    (env.cont.Some? && !env.cont.value(r)) || ToolUses(r.content) == []
  }

  /** The tool-result message a round appends after reply `r`. */
  function ResultsMsg(tools: map<string, ToolFunc>, r: Reply): Message
  {
    Message(User, Blocks(AnswerAll(tools, ToolUses(r.content))))
  }

  /**
   * The rounds of tool execution that follow reply `last`, continuing `acc`: the
   * history so far (ending with `last`) and the replies yielded so far, with
   * `steps` rounds left.
   */
  function Rounds(env: Env, acc: Run, last: Reply, steps: nat): (r: Run)
    ensures acc.replies <= r.replies && |r.replies| <= |acc.replies| + steps
    ensures acc.history <= r.history
    decreases steps
  {
    if steps == 0 || Halts(env, last) then acc
    else
      var h' := acc.history + [ResultsMsg(env.tools, last)];
      match env.llm(NextRequest(env, h', DefaultMaxTokens))
      case Failed(e) => Run(h', acc.replies, Some(e))
      case Replied(r) => Rounds(env, Run(h' + [AssistantMsg(r)], acc.replies + [r], None), r, steps - 1)
  }

  /** `range(max_steps)` is empty for a negative bound. */
  function StepBudget(maxSteps: int): nat
  {
    if maxSteps < 0 then 0 else maxSteps
  }

  /** The whole of `toolloop(text, max_steps, cont_func)` on history `h`. */
  function ToolLoopRun(env: Env, h: seq<Message>, text: string, maxSteps: int): (r: Run)
    ensures |r.replies| <= StepBudget(maxSteps) + 1
    ensures h + [UserText(text)] <= r.history
  {
    var h1 := h + [UserText(text)];
    match env.llm(NextRequest(env, h1, DefaultMaxTokens))
    case Failed(e) => Run(h1, [], Some(e))
    case Replied(r) => Rounds(env, Run(h1 + [AssistantMsg(r)], [r], None), r, StepBudget(maxSteps))
  }

  /**
   * The rounds add at most `steps` replies after the earlier ones; the history only
   * grows, by a result message and a reply per round (and a last result message if
   * the model call fails), each reply appended right after its results.
   */
  lemma {:induction false} RoundsShape(env: Env, acc: Run, last: Reply, steps: nat)
    requires acc.failure.None?
    ensures var run := Rounds(env, acc, last, steps);
      |acc.replies| <= |run.replies| <= |acc.replies| + steps &&
      run.replies[..|acc.replies|] == acc.replies &&
      |run.history| == |acc.history| + 2 * (|run.replies| - |acc.replies|) + (if run.failure.Some? then 1 else 0) &&
      run.history[..|acc.history|] == acc.history &&
      forall k :: |acc.replies| <= k < |run.replies| ==>
        run.history[|acc.history| + 2 * (k - |acc.replies|) + 1] == AssistantMsg(run.replies[k])
    decreases steps
  {
    if !(steps == 0 || Halts(env, last)) {
      var h' := acc.history + [ResultsMsg(env.tools, last)];
      match env.llm(NextRequest(env, h', DefaultMaxTokens))
      case Failed(e) =>
      case Replied(r) =>
        var acc' := Run(h' + [AssistantMsg(r)], acc.replies + [r], None);
        RoundsShape(env, acc', r, steps - 1);
        var run := Rounds(env, acc, last, steps);
        assert run == Rounds(env, acc', r, steps - 1);
        forall k | |acc.replies| <= k < |run.replies|
          ensures run.history[|acc.history| + 2 * (k - |acc.replies|) + 1] == AssistantMsg(run.replies[k])
        {
          if k == |acc.replies| {
            assert run.history[|acc.history| + 1] == acc'.history[|acc.history| + 1];
            assert run.replies[k] == acc'.replies[k];
          } else {
            assert |acc.history| + 2 * (k - |acc.replies|) + 1 == |acc'.history| + 2 * (k - |acc'.replies|) + 1;
          }
        }
    }
  }

  /**
   * The rounds stop early, without failure, only for a reason: the latest reply
   * made the continuation predicate say no or asked for no tool.
   */
  lemma {:induction false} RoundsStopForAReason(env: Env, acc: Run, last: Reply, steps: nat)
    requires acc.failure.None? && (acc.replies == [] || acc.replies[|acc.replies| - 1] == last)
    ensures var run := Rounds(env, acc, last, steps);
      run.failure.None? && |run.replies| < |acc.replies| + steps ==>
        Halts(env, if run.replies == [] then last else run.replies[|run.replies| - 1])
    decreases steps
  {
    if !(steps == 0 || Halts(env, last)) {
      var h' := acc.history + [ResultsMsg(env.tools, last)];
      match env.llm(NextRequest(env, h', DefaultMaxTokens))
      case Failed(e) =>
      case Replied(r) =>
        RoundsStopForAReason(env, Run(h' + [AssistantMsg(r)], acc.replies + [r], None), r, steps - 1);
    }
  }

  /**
   * Only the latest reply can halt the rounds: every reply that was followed by
   * another model call (`last` included, when a round ran) did not halt. A failure
   * is the model's answer to the request for the final history.
   */
  lemma {:induction false} RoundsContinueUntilHalt(env: Env, acc: Run, last: Reply, steps: nat)
    requires acc.failure.None?
    ensures var run := Rounds(env, acc, last, steps);
      ((|run.replies| > |acc.replies| || run.failure.Some?) ==> !Halts(env, last)) &&
      (forall k :: |acc.replies| <= k < |run.replies| && (k < |run.replies| - 1 || run.failure.Some?) ==>
        !Halts(env, run.replies[k])) &&
      (run.failure.Some? ==> env.llm(NextRequest(env, run.history, DefaultMaxTokens)) == Failed(run.failure.value))
    decreases steps
  {
    if !(steps == 0 || Halts(env, last)) {
      var h' := acc.history + [ResultsMsg(env.tools, last)];
      match env.llm(NextRequest(env, h', DefaultMaxTokens))
      case Failed(e) =>
      case Replied(r) =>
        var acc' := Run(h' + [AssistantMsg(r)], acc.replies + [r], None);
        RoundsContinueUntilHalt(env, acc', r, steps - 1);
        RoundsShape(env, acc', r, steps - 1);
        var run := Rounds(env, acc, last, steps);
        assert run == Rounds(env, acc', r, steps - 1);
        forall k | |acc.replies| <= k < |run.replies| && (k < |run.replies| - 1 || run.failure.Some?)
          ensures !Halts(env, run.replies[k])
        {
          if k == |acc.replies| {
            assert run.replies[..|acc'.replies|] == acc'.replies;
            assert run.replies[k] == acc'.replies[k] == r;
            if |run.replies| == |acc'.replies| && run.failure.None? {
              assert false;
            }
          }
        }
    }
  }

  /** Within the rounds, every request of a reply is answered by the very next message. */
  lemma {:induction false} RoundsAnswered(env: Env, acc: Run, last: Reply, steps: nat)
    requires |acc.history| > 0 && acc.history[|acc.history| - 1] == AssistantMsg(last)
    ensures AnsweredFrom(Rounds(env, acc, last, steps).history, |acc.history| - 1)
    decreases steps
  {
    var run := Rounds(env, acc, last, steps);
    if !(steps == 0 || Halts(env, last)) {
      var h := acc.history;
      var h' := h + [ResultsMsg(env.tools, last)];
      assert RespondsAt(h', |h| - 1) by {
        RoundAnswersReply(env.tools, last.content);
      }
      match env.llm(NextRequest(env, h', DefaultMaxTokens))
      case Failed(e) =>
        assert run.history == h';
      case Replied(r) =>
        var acc' := Run(h' + [AssistantMsg(r)], acc.replies + [r], None);
        RoundsAnswered(env, acc', r, steps - 1);
        RoundsShape(env, acc', r, steps - 1);
        assert run == Rounds(env, acc', r, steps - 1);
        assert run.history[..|acc'.history|] == acc'.history;
        forall j | |h| - 1 <= j < |run.history| - 1
          ensures RespondsAt(run.history, j)
        {
          if j == |h| - 1 {
            assert run.history[j] == h'[j] && run.history[j + 1] == h'[j + 1];
            assert RespondsAt(h', j);
          } else if j == |h| {
            assert run.history[j].role == User;
          }
        }
    }
  }

  /**
   * `toolloop` yields the reply to the caller's text first, and at most
   * `max_steps + 1` replies in all; the history only grows, starting with the
   * caller's text, and every reply's requests are answered by the next message.
   */
  lemma ToolLoopProperties(env: Env, h: seq<Message>, text: string, maxSteps: int)
    ensures var run := ToolLoopRun(env, h, text, maxSteps);
      |run.replies| <= StepBudget(maxSteps) + 1 &&
      (run.failure.None? ==> |run.replies| >= 1) &&
      (|run.replies| >= 1 ==> env.llm(NextRequest(env, h + [UserText(text)], DefaultMaxTokens)) == Replied(run.replies[0])) &&
      |run.history| == |h| + 2 * |run.replies| + (if run.failure.Some? then 1 else 0) &&
      run.history[..|h| + 1] == h + [UserText(text)] &&
      AnsweredFrom(run.history, |h| + 1) &&
      (forall k :: 0 <= k < |run.replies| && (k < |run.replies| - 1 || run.failure.Some?) ==>
        !Halts(env, run.replies[k])) &&
      (run.failure.None? && |run.replies| <= StepBudget(maxSteps) ==> Halts(env, run.replies[|run.replies| - 1])) &&
      (run.failure.Some? ==> env.llm(NextRequest(env, run.history, DefaultMaxTokens)) == Failed(run.failure.value))
  {
    var h1 := h + [UserText(text)];
    match env.llm(NextRequest(env, h1, DefaultMaxTokens))
    case Failed(e) =>
    case Replied(r) =>
      var acc := Run(h1 + [AssistantMsg(r)], [r], None);
      RoundsShape(env, acc, r, StepBudget(maxSteps));
      RoundsAnswered(env, acc, r, StepBudget(maxSteps));
      RoundsStopForAReason(env, acc, r, StepBudget(maxSteps));
      RoundsContinueUntilHalt(env, acc, r, StepBudget(maxSteps));
      var run := ToolLoopRun(env, h, text, maxSteps);
      assert run.replies[..1] == [r];
      assert run.history[..|h| + 1] == acc.history[..|h| + 1];
  }

  /** With no step budget the loop yields the first reply only and executes no tool. */
  lemma ToolLoopZeroSteps(env: Env, h: seq<Message>, text: string, maxSteps: int, r: Reply)
    requires maxSteps <= 0
    requires env.llm(NextRequest(env, h + [UserText(text)], DefaultMaxTokens)) == Replied(r)
    ensures ToolLoopRun(env, h, text, maxSteps) == Run(h + [UserText(text), AssistantMsg(r)], [r], None)
  {
  }

  /**
   * A stop by the budget (or by the continuation predicate) can leave the
   * latest reply's requests unanswered: the history then ends with a reply that
   * asks for a tool.
   */
  lemma BudgetCanLeaveRequestsUnanswered(env: Env, h: seq<Message>, text: string, maxSteps: int, r: Reply)
    requires maxSteps <= 0 && ToolUses(r.content) != []
    requires env.llm(NextRequest(env, h + [UserText(text)], DefaultMaxTokens)) == Replied(r)
    ensures var run := ToolLoopRun(env, h, text, maxSteps);
      run.failure.None? && run.history[|run.history| - 1] == AssistantMsg(r) &&
      ToolUses(run.history[|run.history| - 1].content.blocks) != []
  {
    ToolLoopZeroSteps(env, h, text, maxSteps, r);
  }

  /** A continuation predicate that always says no leaves exactly one reply, whatever the budget. */
  lemma ToolLoopNeverContinue(env: Env, h: seq<Message>, text: string, maxSteps: int, r: Reply)
    requires env.cont.Some? && forall x :: !env.cont.value(x)
    requires env.llm(NextRequest(env, h + [UserText(text)], DefaultMaxTokens)) == Replied(r)
    ensures ToolLoopRun(env, h, text, maxSteps) == Run(h + [UserText(text), AssistantMsg(r)], [r], None)
  {
  }

  /** A first reply that asks for no tool ends the loop after that reply. */
  lemma ToolLoopNoToolCalls(env: Env, h: seq<Message>, text: string, maxSteps: int, r: Reply)
    requires forall k :: 0 <= k < |r.content| ==> !r.content[k].ToolUse?
    requires env.llm(NextRequest(env, h + [UserText(text)], DefaultMaxTokens)) == Replied(r)
    ensures ToolLoopRun(env, h, text, maxSteps) == Run(h + [UserText(text), AssistantMsg(r)], [r], None)
  {
    NoToolUses(r.content);
  }

  // ---------------------------------------------------------------------------
  // What the chat hands to the logger
  // ---------------------------------------------------------------------------

  function RoleName(role: Role): string
  {
    if role == User then "user" else "assistant"
  }

  /** A history entry as the logger receives it: SDK blocks from replies, dicts from `mk_toolres`. */
  function LogItem(b: ContentBlock): ApiLogging.Item
  {
    match b
    case TextBlock(t) => ApiLogging.TextObj(t)
    case ToolUse(id, n, input) => ApiLogging.ToolUseObj(id, n, input)
    case ToolResult(id, c) => ApiLogging.DictItem(map["type" := "tool_result", "tool_use_id" := id, "content" := c])
  }

  function LogItems(bs: seq<ContentBlock>): (r: seq<ApiLogging.Item>)
    ensures |r| == |bs| && forall k :: 0 <= k < |bs| ==> r[k] == LogItem(bs[k])
  {
    if bs == [] then [] else LogItems(bs[..|bs| - 1]) + [LogItem(bs[|bs| - 1])]
  }

  function LogEntry(m: Message): ApiLogging.LogMsg
  {
    ApiLogging.DictMsg(Some(RoleName(m.role)),
      Some(match m.content
        case Plain(s) => ApiLogging.StrContent(s)
        case Blocks(bs) => ApiLogging.ListContent(LogItems(bs))))
  }

  function LogView(h: seq<Message>): (r: seq<ApiLogging.LogMsg>)
    ensures |r| == |h| && forall k :: 0 <= k < |h| ==> r[k] == LogEntry(h[k])
  {
    if h == [] then [] else LogView(h[..|h| - 1]) + [LogEntry(h[|h| - 1])]
  }

  /** How the logger shows one block of a chat message. */
  function LoggedBlock(b: ContentBlock): ApiLogging.SItem
  {
    match b
    case TextBlock(t) => ApiLogging.SText(t)
    case ToolUse(id, n, input) => ApiLogging.SToolUse(id, n, input)
    case ToolResult(id, c) => ApiLogging.SDict(map["type" := "tool_result", "tool_use_id" := id, "content" := c])
  }

  /**
   * The logger drops no block of a chat message: it keeps the role and serialises
   * each block, in order, with its text, its id, name and input, or its
   * `tool_use_id` and content.
   */
  lemma ChatMessageLoggedInFull(m: Message)
    requires m.content.Blocks?
    ensures var s := ApiLogging.Serialize(LogEntry(m));
      s.Record? && s.role == Some(RoleName(m.role)) && s.content.SContentList? &&
      |s.content.items| == |m.content.blocks| &&
      forall k :: 0 <= k < |m.content.blocks| ==> s.content.items[k] == LoggedBlock(m.content.blocks[k])
  {
    var bs := m.content.blocks;
    var items := LogItems(bs);
    ApiLogging.SerializeItemsInOrder(items);
    var out := ApiLogging.SerializeItems(items);
    assert ApiLogging.Serialize(LogEntry(m)) == ApiLogging.Record(Some(RoleName(m.role)), ApiLogging.SContentList(out));
    forall k | 0 <= k < |bs|
      ensures out[k] == LoggedBlock(bs[k])
    {
      assert items[k] == LogItem(bs[k]);
    }
  }

  // ---------------------------------------------------------------------------
  // The orchestrator
  // ---------------------------------------------------------------------------

  class Chat {
    const model: string
    /** The logger, present when logging is enabled. */
    const logger: ApiLogging.ApiLogger?
    /** The conversation history; it only grows. */
    var h: seq<Message>
    var tools: map<string, ToolFunc>
    var toolSchemas: seq<Schema>
    /** Every tool registered so far, in order. */
    ghost var registrations: seq<ToolFunc>

    /** The tool map and the schema list are those of the registrations so far. */
    ghost predicate Valid()
      reads this
    {
      tools == Registry(registrations) && toolSchemas == SchemasOf(registrations)
    }

    /** The environment a tool loop runs in. */
    ghost function EnvOf(llm: Llm, cont: Option<Continue>): Env
      reads this
    {
      Env(model, tools, toolSchemas, llm, cont)
    }

    /** `Chat(model, tools, enable_logging)`: registers the tools in order. */
    constructor (model: string, toolList: seq<ToolFunc>, enableLogging: bool)
      ensures Valid()
      ensures this.model == model && h == [] && registrations == toolList
      ensures (logger != null) == enableLogging
      ensures logger != null ==> fresh(logger) && logger.requestCount == 0
    {
      this.model := model;
      if enableLogging {
        logger := new ApiLogging.ApiLogger();
      } else {
        logger := null;
      }
      h := [];
      tools := map[];
      toolSchemas := [];
      registrations := [];
      new;
      var i := 0;
      while i < |toolList|
        invariant 0 <= i <= |toolList|
        invariant Valid() && h == [] && registrations == toolList[..i]
        invariant logger != null ==> fresh(logger) && logger.requestCount == 0
      {
        RegisterTool(toolList[i]);
        assert toolList[..i + 1] == toolList[..i] + [toolList[i]];
        i := i + 1;
      }
      assert toolList[..i] == toolList;
    }

    /** `register_tool`: stores the tool under its name, replacing any earlier one, and appends its schema. */
    method RegisterTool(f: ToolFunc)
      requires Valid()
      modifies this
      ensures Valid()
      ensures registrations == old(registrations) + [f]
      ensures tools == old(tools)[f.meta.name := f]
      ensures toolSchemas == old(toolSchemas) + [SchemaOf(f.meta)]
      ensures h == old(h)
    {
      var schema := GenerateToolSchema(f.meta);
      tools := tools[f.meta.name := f];
      toolSchemas := toolSchemas + [schema];
      registrations := registrations + [f];
      assert registrations[..|registrations| - 1] == old(registrations);
    }

    /**
     * `__call__`: appends the caller's text, asks the model (without tools when
     * none are registered) and appends its reply. When the model call fails, the
     * caller's text stays appended and no reply is.
     */
    method Call(text: string, maxTokens: Option<int>, llm: Llm) returns (outcome: LlmOutcome)
      requires Valid()
      modifies this, logger
      ensures Valid() && tools == old(tools) && toolSchemas == old(toolSchemas) && registrations == old(registrations)
      ensures outcome == llm(Request(model, maxTokens.GetOr(DefaultMaxTokens), old(h) + [UserText(text)], Advertised(toolSchemas)))
      ensures h == old(h) + [UserText(text)] + (if outcome.Replied? then [AssistantMsg(outcome.reply)] else [])
      ensures logger != null ==> logger.requestCount == old(logger.requestCount) + 1
    {
      h := h + [UserText(text)];
      if logger != null {
        var _, _ := logger.LogApiRequest(model, LogView(h), Advertised(toolSchemas), maxTokens);
      }
      outcome := llm(Request(model, maxTokens.GetOr(DefaultMaxTokens), h, Advertised(toolSchemas)));
      if outcome.Replied? {
        if logger != null {
          var _ := logger.LogApiResponse(outcome.reply);
        }
        h := h + [AssistantMsg(outcome.reply)];
      }
    }

    /**
     * Answers the `tool_use` blocks of one round, in order, and gives the
     * tool-execution record of each.
     */
    method ExecuteToolCalls(calls: seq<ContentBlock>) returns (results: seq<ContentBlock>, records: seq<ApiLogging.ToolLogEntry>)
      requires forall k :: 0 <= k < |calls| ==> calls[k].ToolUse?
      ensures results == AnswerAll(tools, calls)
      ensures |results| == |calls| && |records| == |calls|
      ensures forall k :: 0 <= k < |calls| ==> results[k].ToolResult? && results[k].toolUseId == calls[k].id
      ensures forall k :: 0 <= k < |calls| ==> records[k] == ExecutionLog(tools, calls[k])
    {
      results := [];
      records := [];
      var i := 0;
      while i < |calls|
        invariant 0 <= i <= |calls|
        invariant results == AnswerAll(tools, calls[..i])
        invariant |records| == i && forall k :: 0 <= k < i ==> records[k] == ExecutionLog(tools, calls[k])
      {
        var call := calls[i];
        var result, record;
        if call.name in tools {
          match tools[call.name].run(call.input) {
            case Returned(out) =>
              result := MkToolRes(call.id, out);
              record := ApiLogging.ToolExecutionEntry(call.name, out, None);
            case Raised(msg) =>
              result := MkToolRes(call.id, "Error: " + msg);
              record := ApiLogging.ToolExecutionEntry(call.name, "None", Some(msg));
          }
        } else {
          result := MkToolRes(call.id, "Error: Unknown tool " + call.name);
          record := ApiLogging.ToolExecutionEntry(call.name, "None", Some("Unknown tool"));
        }
        assert calls[..i + 1][..i] == calls[..i];
        results := results + [result];
        records := records + [record];
        i := i + 1;
      }
      assert calls[..i] == calls;
    }

    /**
     * One round of `toolloop` after reply `response`: appends the answers to its
     * tool requests, asks the model again (logging the request) and appends the
     * new reply, if the model gives one.
     */
    method Round(response: Reply, llm: Llm) returns (outcome: LlmOutcome)
      modifies this, logger
      ensures tools == old(tools) && toolSchemas == old(toolSchemas) && registrations == old(registrations)
      ensures outcome == llm(Request(model, DefaultMaxTokens, old(h) + [ResultsMsg(tools, response)], Advertised(toolSchemas)))
      ensures outcome.Failed? ==> h == old(h) + [ResultsMsg(tools, response)]
      ensures outcome.Replied? ==> h == old(h) + [ResultsMsg(tools, response)] + [AssistantMsg(outcome.reply)]
      ensures logger != null ==> logger.requestCount == old(logger.requestCount) + 1
    {
      var results, _ := ExecuteToolCalls(ToolUses(response.content));
      h := h + [Message(User, Blocks(results))];
      if logger != null {
        var _, _ := logger.LogApiRequest(model, LogView(h), Advertised(toolSchemas), Some(DefaultMaxTokens));
      }
      outcome := llm(Request(model, DefaultMaxTokens, h, Advertised(toolSchemas)));
      if outcome.Replied? {
        if logger != null {
          var _ := logger.LogApiResponse(outcome.reply);
        }
        h := h + [AssistantMsg(outcome.reply)];
      }
    }

    /**
     * `toolloop`: the replies it yields, in order, and the model failure that ended
     * it, if any. The new history and the replies are those of `ToolLoopRun`; the
     * logger counts one request per model call.
     */
    method ToolLoop(text: string, maxSteps: int, cont: Option<Continue>, llm: Llm)
      returns (replies: seq<Reply>, failure: Option<string>)
      requires Valid()
      modifies this, logger
      ensures Valid() && tools == old(tools) && toolSchemas == old(toolSchemas) && registrations == old(registrations)
      ensures Run(h, replies, failure) == ToolLoopRun(old(EnvOf(llm, cont)), old(h), text, maxSteps)
      ensures logger != null ==>
        logger.requestCount == old(logger.requestCount) + |replies| + (if failure.Some? then 1 else 0)
    {
      ghost var env := EnvOf(llm, cont);
      ghost var target := ToolLoopRun(env, h, text, maxSteps);
      var first := Call(text, None, llm);
      if first.Failed? {
        return [], Some(first.error);
      }
      var response := first.reply;
      replies := [response];
      failure := None;
      var steps := StepBudget(maxSteps);
      var step := 0;
      while step < steps
        invariant 0 <= step <= steps
        invariant tools == old(tools) && toolSchemas == old(toolSchemas) && registrations == old(registrations)
        invariant env == Env(model, tools, toolSchemas, llm, cont)
        invariant target == Rounds(env, Run(h, replies, None), response, steps - step)
        invariant logger != null ==> logger.requestCount == old(logger.requestCount) + |replies|
      {
        if cont.Some? && !cont.value(response) {
          break;
        }
        if ToolUses(response.content) == [] {
          break;
        }
        var outcome := Round(response, llm);
        if outcome.Failed? {
          failure := Some(outcome.error);
          return;
        }
        response := outcome.reply;
        replies := replies + [response];
        step := step + 1;
      }
    }
  }
}
