/** Turns of the conversation, the request sent to the completion service, and the
    turn a settled request adds. */
module Transcript {

  datatype Role = System | User | Assistant

  /** One `{ role, content }` entry of the chat history. */
  datatype Turn = Turn(role: Role, content: string)

  /** The fixed instruction that opens every request ("you are a kind and polite AI
      assistant"). */
  const SystemRole: string := "あなたは親切で丁寧なAIアシスタントです。"

  /** The one text shown for every failed request ("an error occurred, please try
      again"). */
  const ErrorMessage: string := "エラーが発生しました。もう一度試してください。"

  /** The model named in every request. */
  const ModelName: string := "gpt-3.5-turbo"

  const SystemTurn: Turn := Turn(System, SystemRole)

  predicate NoSystemTurns(ms: seq<Turn>) {
    forall i :: 0 <= i < |ms| ==> ms[i].role != System
  }

  /** Why a request failed: the transport, a non-success status, or a body without
      `choices[0].message`. The controller never looks at it. */
  datatype FailureCause = Transport | HttpStatus(code: int) | MalformedBody

  /** How the completion request settles. */
  datatype Outcome = Success(reply: string) | Failure(cause: FailureCause)

  /** The body of the POST to the completion endpoint. */
  datatype Request = Request(model: string, messages: seq<Turn>)

  /** The request built from the history snapshot: the system instruction first, then
      the snapshot in order. When the snapshot holds no system turn, the request holds
      exactly one, at the front. */
  function RequestFor(snapshot: seq<Turn>): (r: Request)
    ensures r.model == ModelName
    ensures |r.messages| == |snapshot| + 1
    ensures r.messages[0] == SystemTurn
    ensures forall i :: 0 <= i < |snapshot| ==> r.messages[i + 1] == snapshot[i]
    ensures NoSystemTurns(snapshot) ==>
              forall i :: 0 <= i < |r.messages| ==> (r.messages[i].role == System <==> i == 0)
  {
    Request(ModelName, [SystemTurn] + snapshot)
  }

  /** The assistant turn that settles a request: the reply verbatim on success, the
      fixed error text on any failure, whatever its cause. */
  function ReplyTurn(outcome: Outcome): (t: Turn)
    ensures t.role == Assistant
    ensures outcome.Success? ==> t.content == outcome.reply
    ensures outcome.Failure? ==> t.content == ErrorMessage
  {
    match outcome
    case Success(reply) => Turn(Assistant, reply)
    case Failure(_) => Turn(Assistant, ErrorMessage)
  }

  /** A failed request cannot be told apart from another failed request, nor from a
      reply whose text happens to be the error message. */
  lemma FailuresIndistinguishable(c1: FailureCause, c2: FailureCause)
    ensures ReplyTurn(Failure(c1)) == ReplyTurn(Failure(c2)) == ReplyTurn(Success(ErrorMessage))
  {
  }
}
