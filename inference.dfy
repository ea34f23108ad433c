/**
  The inference gateway (app/routes.py, extract_content and generate_ai_response):
  one call to the model server, the text taken out of whichever response shape came
  back, and any failure turned into an "Ошибка: <reason>" reply.
*/
module Inference {
  import opened Wrappers
  import opened Prompt

  /** What a mapping-shaped response holds under its "message" key. */
  datatype MessageEntry =
    | Absent                              // no "message" key: `.get("message", {})` gives an empty mapping
    | Fields(fields: map<string, string>) // a nested mapping
    | NotMapping(error: string)           // any other value: calling `.get` on it raises, with this text

  /** The shapes a model-server response can take. `rendering` is the response's `str(...)`. */
  datatype Response =
    | ChatObject(content: string)                       // an object exposing `.message.content`
    | Mapping(message: MessageEntry, rendering: string) // a dict
    | Opaque(rendering: string)                         // anything else

  /** The model server either returns a response or raises with a reason. */
  datatype GatewayOutcome = Returned(response: Response) | Raised(reason: string)

  /** What the user sees, and what is stored, when generation fails. */
  const ErrorPrefix: string := "Ошибка: "

  /** The text a response carries at `message.content`, in either recognised shape. */
  function NestedContent(response: Response): Option<string>
  {
    match response
    case ChatObject(content) => Some(content)
    case Mapping(Fields(fields), _) => if "content" in fields then Some(fields["content"]) else None
    case _ => None
  }

  /**
    The string rendering a response falls back to. For the object shape the value is
    never used, since `NestedContent` always finds its content; the source's `str(...)`
    of such an object would be its repr, which the model does not represent.
  */
  function Rendering(response: Response): string
  {
    match response
    case ChatObject(content) => content
    case Mapping(_, rendering) => rendering
    case Opaque(rendering) => rendering
  }

  /**
    extract_content: the nested content when there is one, otherwise the string
    rendering; it fails (raises) only for a mapping whose "message" is not a mapping.
  */
  function ExtractContent(response: Response): (r: Result<string, string>)
    ensures r.Failure? <==> response.Mapping? && response.message.NotMapping?
    ensures r.Failure? ==> r.error == response.message.error
    ensures NestedContent(response).Some? ==> r == Success(NestedContent(response).value)
    ensures r.Success? && NestedContent(response).None? ==> r.value == Rendering(response)
  {
    match response
    case ChatObject(content) => Success(content)
    case Mapping(message, rendering) =>
      (match message
       case Absent => Success(rendering)
       case Fields(fields) => Success(if "content" in fields then fields["content"] else rendering)
       case NotMapping(error) => Failure(error))
    case Opaque(rendering) => Success(rendering)
  }

  /** The generated text of one gateway call, or the reason it failed. */
  function Generated(outcome: GatewayOutcome): Result<string, string>
  {
    match outcome
    case Returned(response) => ExtractContent(response)
    case Raised(reason) => Failure(reason)
  }

  /** generate_ai_response's result: the generated text, or "Ошибка: " followed by the failure reason. */
  function ReplyText(outcome: GatewayOutcome): (reply: string)
    ensures Generated(outcome).Success? ==> reply == Generated(outcome).value
    ensures Generated(outcome).Failure? ==>
      && |ErrorPrefix| <= |reply|
      && reply[..|ErrorPrefix|] == ErrorPrefix
      && reply[|ErrorPrefix|..] == Generated(outcome).error
  {
    match Generated(outcome)
    case Success(text) => text
    case Failure(reason) => ErrorPrefix + reason
  }

  /** Both recognised shapes carrying the same text yield the same reply. */
  lemma ShapesAgree(text: string, rendering: string, extra: map<string, string>)
    ensures ReplyText(Returned(ChatObject(text)))
         == ReplyText(Returned(Mapping(Fields(extra["content" := text]), rendering)))
         == text
  {
  }

  /**
    The model server behind `ollama.chat`: what it answers is a fixed function of the
    message list; `requests` records every list sent, oldest first.
  */
  class Gateway {
    const respond: seq<Message> -> GatewayOutcome
    ghost var requests: seq<seq<Message>>

    constructor(respond: seq<Message> -> GatewayOutcome)
      ensures this.respond == respond && requests == []
    {
      this.respond := respond;
      requests := [];
    }

    /** One blocking chat call. */
    method Call(messages: seq<Message>) returns (outcome: GatewayOutcome)
      modifies this
      ensures requests == old(requests) + [messages]
      ensures outcome == respond(messages)
    {
      requests := requests + [messages];
      outcome := respond(messages);
    }
  }

  /**
    generate_ai_response: assembles the prompt, makes exactly one call with it, and
    returns the reply text, the failure sentinel included.
  */
  method GenerateAiResponse(gateway: Gateway, prompt: string, history: seq<Exchange>) returns (reply: string)
    modifies gateway
    ensures gateway.requests == old(gateway.requests) + [PromptMessages(prompt, history)]
    ensures reply == ReplyText(gateway.respond(PromptMessages(prompt, history)))
  {
    var messages := PrepareMessages(prompt, history);
    var outcome := gateway.Call(messages);
    reply := ReplyText(outcome);
  }
}
