/** What travels between the generation job and the clients that render it. */
module AiMessages {
  import opened Common

  datatype AiStatus = Pending | Streaming | Completed | Cancelled | Failed
  {
    predicate Live() { Pending? || Streaming? }
  }

  /** An agent step; `atChar` is where in the answer it happened. */
  datatype ToolStep = ToolStep(
    id: string, tool: string, caption: Option<string>, emoji: Option<string>, status: string, atChar: nat)

  /** The message as the API serialises it; absent and null fields are both `None`. */
  datatype AiMessage = AiMessage(
    id: string, status: AiStatus, content: Option<string>, errorCode: Option<string>,
    partialContent: Option<string>, lastIndex: Option<int>, steps: Option<seq<ToolStep>>, rest: string)

  datatype AiEvent =
    | StartedEvent(id: string)
    | ToolEvent(id: string, step: ToolStep)
    | DeltaEvent(id: string, index: int, text: string)
    | CompletedEvent(message: AiMessage)
    | FailedEvent(id: string, errorCode: string)
    | ConversationEvent

  function Concat(parts: seq<string>): string {
    if parts == [] then "" else Concat(parts[..|parts| - 1]) + parts[|parts| - 1]
  }

  lemma ConcatAppend(parts: seq<string>, part: string)
    ensures Concat(parts + [part]) == Concat(parts) + part
  {
    assert (parts + [part])[..|parts|] == parts;
  }

  /** What a prefix of the deltas spells is a prefix of what all of them spell. */
  lemma {:induction false} ConcatPrefix(parts: seq<string>, k: nat)
    requires k <= |parts|
    ensures Concat(parts[..k]) <= Concat(parts)
    ensures k < |parts| && (forall p | p in parts :: p != "") ==> |Concat(parts[..k])| < |Concat(parts)|
  {
    if k < |parts| {
      var n := |parts| - 1;
      ConcatPrefix(parts[..n], k);
      assert parts[..n][..k] == parts[..k];
      assert parts == parts[..n] + [parts[n]];
      if (forall p | p in parts :: p != "") {
        assert parts[n] in parts;
        assert forall p | p in parts[..n] :: p in parts;
      }
    } else {
      assert parts[..k] == parts;
    }
  }

  datatype Outcome = Finished | Stopped | Broke(errorCode: string)
}
