/** The interactive follow-up loop of `main`: each question is appended, the
    whole conversation is re-sent, and the reply is appended. */
module Session {
  import opened Wrappers
  import opened Chat
  import opened Llm

  /** The sentinel input that ends the session. */
  const ExitCommand: string := "exit"

  /** The result of one pass of the loop. `Failed` keeps the conversation as it
      stood when the request raised, with the unanswered question appended. */
  datatype TurnResult =
    | Exit
    | Continue(conversation: seq<Message>, reply: string)
    | Failed(conversation: seq<Message>, error: LlmError)

  /** `reply` is what the backend answers when sent `history`. */
  predicate Answers(cfg: LlmConfig, services: Services, history: seq<Message>, reply: string) {
    var r := GenerateResponse(cfg, services, history);
    r.Success? && r.value.text == reply
  }

  function Turn(conv: seq<Message>, input: string, cfg: LlmConfig, services: Services): (s: TurnResult)
    ensures s.Exit? <==> input == ExitCommand
    ensures s.Continue? ==>
      && |s.conversation| == |conv| + 2
      && s.conversation[..|conv|] == conv
      && s.conversation[|conv|] == Message(User, input)
      && s.conversation[|conv| + 1] == Message(Assistant, s.reply)
      && Answers(cfg, services, s.conversation[..|conv| + 1], s.reply)
    ensures s.Failed? <==> input != ExitCommand && GenerateResponse(cfg, services, conv + [Message(User, input)]).Failure?
    ensures s.Failed? ==> s.conversation == conv + [Message(User, input)]
    ensures s.Failed? ==> s.error == GenerateResponse(cfg, services, conv + [Message(User, input)]).error
  {
    if input == ExitCommand then Exit
    else
      var sent := conv + [Message(User, input)];
      match GenerateResponse(cfg, services, sent)
      case Failure(e) => Failed(sent, e)
      case Success(reply) =>
        var next := sent + [Message(Assistant, reply.text)];
        assert next[..|conv| + 1] == sent;
        Continue(next, reply.text)
  }

  /** A turn on a well-formed conversation leaves it well-formed. */
  lemma TurnPreservesWellFormed(conv: seq<Message>, input: string, cfg: LlmConfig, services: Services)
    requires WellFormed(conv)
    ensures Turn(conv, input, cfg, services).Continue? ==> WellFormed(Turn(conv, input, cfg, services).conversation)
  {
    var s := Turn(conv, input, cfg, services);
    if s.Continue? {
      var c := s.conversation;
      assert c[..5] == conv[..5];
      forall i | 5 <= i < |c|
        ensures c[i].role == (if i % 2 == 1 then User else Assistant)
      {
        if i < |conv| {
          assert c[i] == conv[i];
        }
      }
    }
  }

  /** How the loop ended: the user typed the sentinel, a request failed, or the
      input ran out (the console was interrupted). */
  datatype SessionEnd =
    | Exited(conversation: seq<Message>)
    | Aborted(conversation: seq<Message>, error: LlmError)
    | Interrupted(conversation: seq<Message>)

  /** `c` is `conv` followed by `turns` answered questions taken from `inputs`,
      each answer being the backend's reply to the entire history before it. */
  predicate ExtendsBy(conv: seq<Message>, c: seq<Message>, inputs: seq<string>, turns: nat, cfg: LlmConfig, services: Services) {
    && turns <= |inputs|
    && |c| == |conv| + 2 * turns
    && c[..|conv|] == conv
    && (forall i :: 0 <= i < turns ==> inputs[i] != ExitCommand)
    && forall i :: 0 <= i < turns ==>
      && c[|conv| + 2 * i] == Message(User, inputs[i])
      && c[|conv| + 2 * i + 1].role == Assistant
      && Answers(cfg, services, c[..|conv| + 2 * i + 1], c[|conv| + 2 * i + 1].content)
  }

  /** One more answered question keeps the history an extension of the review. */
  lemma ExtendsByTurn(conv: seq<Message>, c: seq<Message>, inputs: seq<string>, turns: nat, cfg: LlmConfig, services: Services)
    requires ExtendsBy(conv, c, inputs, turns, cfg, services)
    requires turns < |inputs|
    requires Turn(c, inputs[turns], cfg, services).Continue?
    ensures ExtendsBy(conv, Turn(c, inputs[turns], cfg, services).conversation, inputs, turns + 1, cfg, services)
  {
    var next := Turn(c, inputs[turns], cfg, services).conversation;
    assert next[..|c|] == c;
    assert next[..|conv|] == conv;
    forall i | 0 <= i < turns
      ensures next[..|conv| + 2 * i + 1] == c[..|conv| + 2 * i + 1]
    {
    }
  }

  /** Runs the loop over the user's inputs. Every completed turn adds exactly a
      question and its answer, nothing earlier is changed, and each answer is the
      backend's reply to the entire history up to that question. */
  method Converse(conv: seq<Message>, inputs: seq<string>, cfg: LlmConfig, services: Services)
    returns (end: SessionEnd, turns: nat)
    ensures turns <= |inputs|
    ensures |end.conversation| == |conv| + 2 * turns + (if end.Aborted? then 1 else 0)
    ensures end.conversation[..|conv|] == conv
    ensures forall i :: 0 <= i < turns ==> inputs[i] != ExitCommand
    ensures end.Exited? ==> turns < |inputs| && inputs[turns] == ExitCommand
    ensures end.Interrupted? ==> turns == |inputs|
    ensures end.Aborted? ==> turns < |inputs| && inputs[turns] != ExitCommand
    ensures end.Aborted? ==>
      && end.conversation[|conv| + 2 * turns] == Message(User, inputs[turns])
      && GenerateResponse(cfg, services, end.conversation).Failure?
      && end.error == GenerateResponse(cfg, services, end.conversation).error
    ensures forall i :: 0 <= i < turns ==>
      && end.conversation[|conv| + 2 * i] == Message(User, inputs[i])
      && end.conversation[|conv| + 2 * i + 1].role == Assistant
      && Answers(cfg, services, end.conversation[..|conv| + 2 * i + 1], end.conversation[|conv| + 2 * i + 1].content)
    ensures inputs != [] && inputs[0] == ExitCommand ==> end == Exited(conv) && turns == 0
    ensures WellFormed(conv) && !end.Aborted? ==> WellFormed(end.conversation)
  {
    var c := conv;
    turns := 0;
    assert c[..|conv|] == conv;
    while true
      invariant ExtendsBy(conv, c, inputs, turns, cfg, services)
      invariant turns == 0 ==> c == conv
      invariant WellFormed(conv) ==> WellFormed(c)
      decreases |inputs| - turns
    {
      if turns == |inputs| {
        return Interrupted(c), turns;
      }
      var step := Turn(c, inputs[turns], cfg, services);
      match step
      case Exit =>
        return Exited(c), turns;
      case Failed(sent, e) =>
        assert sent[..|c|] == c;
        assert sent[..|conv|] == conv;
        assert forall i :: 0 <= i < turns ==> sent[..|conv| + 2 * i + 1] == c[..|conv| + 2 * i + 1];
        return Aborted(sent, e), turns;
      case Continue(next, reply) =>
        if WellFormed(conv) {
          TurnPreservesWellFormed(c, inputs[turns], cfg, services);
        }
        ExtendsByTurn(conv, c, inputs, turns, cfg, services);
        c := next;
        turns := turns + 1;
    }
  }
}
