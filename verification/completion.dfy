/** The completion client (`_call_llm`): one call to the chat completion
    service, cleaning and decoding of its answer, and on a decode failure one
    repair call whose answer is cleaned and decoded the same way.

    The service is a function `complete` from the call it receives to its
    reply, and `json.loads` is a function `parse` from text to a decoded
    value or `None` (a `JSONDecodeError`). The result records every call made,
    in order, together with the outcome. */
module Completion {
  import opened Wrappers
  import opened Errors
  import opened PyJson
  import opened Schemas
  import opened Fence

  datatype Speaker = System | User

  datatype Message = Message(speaker: Speaker, content: string)

  /** One request to the completion service. */
  datatype ChatCall = ChatCall(model: string, messages: seq<Message>, temperature: real)

  /** The service's answer: the first choice's message content (which may be
      `None`), or an error raised by the client. */
  datatype Reply = Reply(content: Option<string>) | ServiceError

  /** `SYSTEM_PROMPT` and `FEW_SHOT_EXAMPLE`, static texts sent first. */
  datatype Prompts = Prompts(system: string, fewShot: string)

  /** The calls made, in order, and what the operation produced. */
  datatype Trace<T> = Trace(calls: seq<ChatCall>, outcome: Result<T, Error>)

  const ModelId: string := "doubao-seed-1-6-thinking-250715"
  const TranslateTemperature: real := 0.3
  const RepairTemperature: real := 0.0
  const RepairPrompt: string := "你是一个 JSON 修复助手。请将用户提供的内容修复为合法 JSON，仅输出 JSON。"

  const SourceLabel: string := "源角色: "
  const TargetLabel: string := "\n目标角色: "
  const ContentLabel: string := "\n原始内容:\n"
  const Footer: string := "\n\n请按照系统提示返回 JSON。"

  /** The user message of the translation call. */
  function UserMessage(source: Role, target: Role, content: string): string {
    SourceLabel + (RoleName(source) + (TargetLabel + (RoleName(target) + (ContentLabel + (content + Footer)))))
  }

  /** The translation call: system prompt, few-shot example, user message. */
  function TranslateCall(prompts: Prompts, source: Role, target: Role, content: string): ChatCall {
    ChatCall(ModelId, [
      Message(System, prompts.system),
      Message(System, prompts.fewShot),
      Message(User, UserMessage(source, target, content))], TranslateTemperature)
  }

  /** The repair call: the fixed repair instruction and the text to repair. */
  function RepairCall(text: string): ChatCall {
    ChatCall(ModelId, [Message(System, RepairPrompt), Message(User, text)], RepairTemperature)
  }

  /** The cleaned text of a reply that arrived. */
  function Cleaned(reply: Reply): string
    requires reply.Reply?
  {
    Clean(reply.content)
  }

  /** `_call_llm`. */
  function CallLlm(
    complete: ChatCall -> Reply, parse: string -> Option<Json>,
    prompts: Prompts, source: Role, target: Role, content: string): (t: Trace<Json>)
    // one call, or two; the first is always the translation call
    ensures 1 <= |t.calls| <= 2
    ensures t.calls[0] == TranslateCall(prompts, source, target, content)
    // a second call happens exactly when the first reply arrived and its
    // cleaned text did not decode, and it asks to repair that cleaned text
    ensures |t.calls| == 2 <==>
      complete(t.calls[0]).Reply? && parse(Cleaned(complete(t.calls[0]))).None?
    ensures |t.calls| == 2 ==> t.calls[1] == RepairCall(Cleaned(complete(t.calls[0])))
    // the outcome is decided by the last reply alone
    ensures var last := complete(t.calls[|t.calls| - 1]);
      && (last.ServiceError? ==> t.outcome == Failure(Upstream))
      && (last.Reply? && parse(Cleaned(last)).Some? ==> t.outcome == Success(parse(Cleaned(last)).value))
      && (last.Reply? && parse(Cleaned(last)).None? ==> |t.calls| == 2 && t.outcome == Failure(ParseError))
  {
    var first := TranslateCall(prompts, source, target, content);
    match complete(first)
    case ServiceError => Trace([first], Failure(Upstream))
    case Reply(text) =>
      var raw := Clean(text);
      match parse(raw)
      case Some(data) => Trace([first], Success(data))
      case None =>
        var repair := RepairCall(raw);
        match complete(repair)
        case ServiceError => Trace([first, repair], Failure(Upstream))
        case Reply(repaired) =>
          match parse(Clean(repaired))
          case Some(data) => Trace([first, repair], Success(data))
          case None => Trace([first, repair], Failure(ParseError))
  }

  /** The operation depends on the service only through the calls it makes:
      two services that agree on those calls give the same trace, so nothing
      is asked beyond them. */
  lemma CallLlmOnlyAsksItsCalls(
    complete1: ChatCall -> Reply, complete2: ChatCall -> Reply, parse: string -> Option<Json>,
    prompts: Prompts, source: Role, target: Role, content: string)
    requires var t := CallLlm(complete1, parse, prompts, source, target, content);
      forall i :: 0 <= i < |t.calls| ==> complete1(t.calls[i]) == complete2(t.calls[i])
    ensures CallLlm(complete1, parse, prompts, source, target, content)
         == CallLlm(complete2, parse, prompts, source, target, content)
  {
  }

  /** A first answer that decodes is returned as decoded, after one call. */
  lemma FirstDecodeWins(
    complete: ChatCall -> Reply, parse: string -> Option<Json>,
    prompts: Prompts, source: Role, target: Role, content: string, text: Option<string>, data: Json)
    requires complete(TranslateCall(prompts, source, target, content)) == Reply(text)
    requires parse(Clean(text)) == Some(data)
    ensures CallLlm(complete, parse, prompts, source, target, content)
         == Trace([TranslateCall(prompts, source, target, content)], Success(data))
  {
  }

  lemma NoNewline(r: Role)
    ensures forall i :: 0 <= i < |RoleName(r)| ==> RoleName(r)[i] != '\n'
  {
  }

  /** Two strings free of newlines, each followed by a text that starts with
      a newline, split at the same place. */
  lemma SplitAtNewline(a: string, x: string, b: string, y: string)
    requires forall i :: 0 <= i < |a| ==> a[i] != '\n'
    requires forall i :: 0 <= i < |b| ==> b[i] != '\n'
    requires |x| > 0 && x[0] == '\n' && |y| > 0 && y[0] == '\n'
    requires a + x == b + y
    ensures a == b && x == y
  {
    assert a == (a + x)[..|a|];
    assert b == (b + y)[..|b|];
    assert x == (a + x)[|a|..];
    assert y == (b + y)[|b|..];
  }

  /** The user message carries the request's three fields recoverably:
      different requests never produce the same message. */
  lemma UserMessageInjective(s1: Role, t1: Role, c1: string, s2: Role, t2: Role, c2: string)
    requires UserMessage(s1, t1, c1) == UserMessage(s2, t2, c2)
    ensures s1 == s2 && t1 == t2 && c1 == c2
  {
    var y1 := ContentLabel + (c1 + Footer);
    var y2 := ContentLabel + (c2 + Footer);
    var x1 := TargetLabel + (RoleName(t1) + y1);
    var x2 := TargetLabel + (RoleName(t2) + y2);
    var u1 := RoleName(s1) + x1;
    var u2 := RoleName(s2) + x2;
    assert u1 == UserMessage(s1, t1, c1)[|SourceLabel|..];
    assert u2 == UserMessage(s2, t2, c2)[|SourceLabel|..];
    NoNewline(s1);
    NoNewline(s2);
    assert x1[0] == '\n' && x2[0] == '\n';
    SplitAtNewline(RoleName(s1), x1, RoleName(s2), x2);
    assert RoleName(t1) + y1 == x1[|TargetLabel|..];
    assert RoleName(t2) + y2 == x2[|TargetLabel|..];
    NoNewline(t1);
    NoNewline(t2);
    assert y1[0] == '\n' && y2[0] == '\n';
    SplitAtNewline(RoleName(t1), y1, RoleName(t2), y2);
    assert ParseRole(RoleName(s1)) == Some(s1) && ParseRole(RoleName(t1)) == Some(t1);
    assert c1 + Footer == y1[|ContentLabel|..];
    assert c2 + Footer == y2[|ContentLabel|..];
    assert c1 == (c1 + Footer)[..|c1|];
    assert c2 == (c2 + Footer)[..|c2|];
  }
}
