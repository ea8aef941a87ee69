/** `analyze_pr_with_GPT`: the four seed messages of a review and the first reply. */
module Prompt {
  import opened Wrappers
  import opened Text
  import opened Chat
  import opened Llm

  /** The review instructions sent as the system message. */
  const SystemPrompt: string :=
    "As a tech reviewer, please provide an in-depth review of the\n"
    + "following pull request git diff data. Your task is to carefully analyze the title, body, and\n"
    + "changes made in the pull request and identify any problems that need addressing including \n"
    + "security issues. Please provide clear descriptions of each problem and offer constructive \n"
    + "suggestions for how to address them. Additionally, please consider ways to optimize the \n"
    + "changes made in the pull request. You should focus on providing feedback that will help\n"
    + "improve the quality of the codebase while also remaining concise and clear in your\n"
    + "explanations. Please note that unnecessary explanations or summaries should be avoided\n"
    + "as they may delay the review process. Your feedback should be provided in a timely\n"
    + "manner, using language that is easy to understand and follow.\n"
    + "\n"
    + "You are provided with the code changes (diffs) in a unidiff format.\n"
    + "\n"
    + "Your output should be a short summary of the changes and then a more detailed in a table format with the following columns:\n"
    + "- Problem category: Bug, Security, Optimization, etc.\n"
    + "- File name\n"
    + "- Line number(s)\n"
    + "- Description of the problem - where code can be included\n"
    + "- Suggestion for improvement - where code can be included\n"
    + "- Example code/solution\n"

  /** The closing instruction, the last seed message. */
  const FinalMessage: string :=
    "All code changes have been provided.\n"
    + "    Please provide me with your concise code review based on all the changes, context & title provided\n"
    + "    "

  const DescriptionHead: string :=
    "A description was given to help you assist in understand why these changes were made.\n"
    + "    The description was provided in a markdown format.\n\n    Title: "
  const DescriptionMid: string := "\n    Description: "
  const DiffHead: string := "Diff in unidiff format:\n\n    "
  const Trailer: string := "\n    "

  /** The message carrying the PR title and description. */
  function DescriptionMessage(title: string, description: string): (m: string)
    ensures Contains(m, title) && Contains(m, description)
    ensures DescriptionHead + title <= m
  {
    var m := DescriptionHead + title + DescriptionMid + description + Trailer;
    ContainsInfix(DescriptionHead, title, DescriptionMid + description + Trailer);
    assert m == DescriptionHead + title + (DescriptionMid + description + Trailer);
    ContainsInfix(DescriptionHead + title + DescriptionMid, description, Trailer);
    m
  }

  /** The message carrying the composed diff. */
  function DiffMessage(diff: string): (m: string)
    ensures Contains(m, diff)
    ensures DiffHead + diff <= m
  {
    ContainsInfix(DiffHead, diff, Trailer);
    DiffHead + diff + Trailer
  }

  /** The seed conversation: instructions, description, diff, closing instruction. */
  function SeedMessages(title: string, description: string, diff: string): (msgs: seq<Message>)
    ensures Roles(msgs) == SeedRoles
    ensures msgs[0].content == SystemPrompt && msgs[3].content == FinalMessage
    ensures Contains(msgs[1].content, title) && Contains(msgs[1].content, description)
    ensures Contains(msgs[2].content, diff)
  {
    [ Message(System, SystemPrompt),
      Message(User, DescriptionMessage(title, description)),
      Message(User, DiffMessage(diff)),
      Message(User, FinalMessage) ]
  }

  /** The review, its usage metrics (if any), and the conversation so far. */
  datatype Analysis = Analysis(response: string, usage: Option<Usage>, messages: seq<Message>)

  /** Sends the seed conversation and appends the reply as the assistant's turn;
      a failed request propagates. */
  function AnalyzePr(title: string, description: string, diff: string, cfg: LlmConfig, services: Services)
    : (r: Result<Analysis, LlmError>)
    ensures r.Success? <==> GenerateResponse(cfg, services, SeedMessages(title, description, diff)).Success?
    ensures r.Failure? ==> r.error == GenerateResponse(cfg, services, SeedMessages(title, description, diff)).error
    ensures r.Success? ==>
      && |r.value.messages| == 5
      && r.value.messages[..4] == SeedMessages(title, description, diff)
      && r.value.messages[4] == Message(Assistant, r.value.response)
      && WellFormed(r.value.messages)
      && Contains(r.value.messages[1].content, title) && Contains(r.value.messages[1].content, description)
      && Contains(r.value.messages[2].content, diff)
    ensures r.Success? ==>
      GenerateResponse(cfg, services, SeedMessages(title, description, diff)).value == LlmReply(r.value.response, r.value.usage)
    ensures r.Success? && r.value.usage.Some? ==> cfg.model in OpenAiGptTypes
  {
    var seed := SeedMessages(title, description, diff);
    match GenerateResponse(cfg, services, seed)
    case Failure(e) => Failure(e)
    case Success(reply) =>
      var messages := seed + [Message(Assistant, reply.text)];
      assert messages[..4] == seed;
      assert Roles(messages[..5]) == SeedRoles + [Assistant] by {
        assert messages[..5] == messages;
      }
      Success(Analysis(reply.text, reply.usage, messages))
  }
}
