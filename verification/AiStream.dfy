/** The client's assembler: one record per generating message, updated in place by events and API snapshots. */
module AiStreams {
  import opened Common
  import opened AiMessages

  /** JavaScript's largest safe integer: the cursor of a stream that takes no more deltas. */
  const MAX_SAFE_INTEGER: int := 9007199254740991

  datatype Stream = Stream(
    status: AiStatus, content: string, appliedIndex: int, needsResync: bool,
    steps: seq<ToolStep>, message: Option<AiMessage>)

  type Streams = map<string, Stream>

  function Blank(): Stream { Stream(Pending, "", -1, false, [], None) }

  function Ensure(streams: Streams, id: string): Stream { if id in streams then streams[id] else Blank() }

  function IndexOf(steps: seq<ToolStep>, id: string): (at: int)
    ensures -1 <= at < |steps|
    ensures at >= 0 ==> steps[at].id == id && forall i | 0 <= i < at :: steps[i].id != id
    ensures at < 0 ==> forall i | 0 <= i < |steps| :: steps[i].id != id
  {
    IndexFrom(steps, id, 0)
  }

  function IndexFrom(steps: seq<ToolStep>, id: string, from: nat): (at: int)
    requires from <= |steps| && forall i | 0 <= i < from :: steps[i].id != id
    ensures -1 <= at < |steps|
    ensures at >= 0 ==> steps[at].id == id && forall i | 0 <= i < at :: steps[i].id != id
    ensures at < 0 ==> forall i | 0 <= i < |steps| :: steps[i].id != id
    decreases |steps| - from
  {
    if from == |steps| then -1 else if steps[from].id == id then from else IndexFrom(steps, id, from + 1)
  }

  /** A later frame of a step replaces the earlier one, which still lends its caption and emoji. */
  function MergeStep(steps: seq<ToolStep>, step: ToolStep): seq<ToolStep> {
    var at := IndexOf(steps, step.id);
    if at >= 0
    then steps[at := step.(caption := step.caption.Or(steps[at].caption), emoji := step.emoji.Or(steps[at].emoji))]
    else steps + [step]
  }

  function StepIds(steps: seq<ToolStep>): seq<string> { seq(|steps|, i requires 0 <= i < |steps| => steps[i].id) }

  /** One card per step, in order of first arrival, and a caption or emoji once shown never disappears. */
  lemma StepsKeepArrivalOrder(steps: seq<ToolStep>, step: ToolStep)
    requires forall i, j | 0 <= i < j < |steps| :: steps[i].id != steps[j].id
    ensures var r := MergeStep(steps, step);
            && StepIds(r) == (if step.id in StepIds(steps) then StepIds(steps) else StepIds(steps) + [step.id])
            && (forall i, j | 0 <= i < j < |r| :: r[i].id != r[j].id)
            && (forall i | 0 <= i < |steps| ::
                  && (steps[i].caption.Some? ==> r[i].caption.Some?) && (steps[i].emoji.Some? ==> r[i].emoji.Some?)
                  && (steps[i].id != step.id ==> r[i] == steps[i]))
  {
    var at := IndexOf(steps, step.id);
    if at >= 0 {
      assert StepIds(steps)[at] == step.id;
    } else {
      assert forall i | 0 <= i < |steps| :: StepIds(steps)[i] != step.id;
    }
  }

  function OnDelta(s: Stream, index: int, text: string): Stream {
    if !s.status.Live() || index <= s.appliedIndex then s
    else if index > s.appliedIndex + 1 then s.(needsResync := true)
    else s.(status := Streaming, content := s.content + text, appliedIndex := index)
  }

  function Finalize(s: Stream, message: AiMessage): Stream {
    s.(status := message.status, content := message.content.GetOr(s.content), message := Some(message), needsResync := false)
  }

  function FailedMessage(known: Option<AiMessage>, id: string, code: string): AiMessage {
    match known
    case Some(m) => m.(id := id, status := Failed, errorCode := Some(code))
    case None => AiMessage(id, Failed, None, Some(code), None, None, None, "")
  }

  predicate Addressed(e: AiEvent) { !e.ConversationEvent? }

  function Target(e: AiEvent): string
    requires Addressed(e)
  {
    match e
    case StartedEvent(id) => id
    case ToolEvent(id, _) => id
    case DeltaEvent(id, _, _) => id
    case CompletedEvent(m) => m.id
    case FailedEvent(id, _) => id
  }

  function OnEvent(s: Stream, e: AiEvent): Stream
    requires Addressed(e)
  {
    match e
    case StartedEvent(_) => s.(status := Streaming, appliedIndex := Max(s.appliedIndex, -1))
    case ToolEvent(_, step) => s.(steps := MergeStep(s.steps, step))
    case DeltaEvent(_, index, text) => OnDelta(s, index, text)
    case CompletedEvent(m) => Finalize(s, m)
    case FailedEvent(id, code) =>
      s.(status := Failed, needsResync := false, message := Some(FailedMessage(s.message, id, code)))
  }

  function OnSeed(s: Stream, m: AiMessage): Stream {
    var s' := s.(message := Some(m), status := m.status);
    if m.status.Live() then
      var s'' := if m.partialContent.Some?
                 then s'.(content := m.partialContent.value, appliedIndex := m.lastIndex.GetOr(-1)) else s';
      s''.(steps := m.steps.GetOr(s.steps))
    else s'.(content := m.content.GetOr(""), appliedIndex := MAX_SAFE_INTEGER)
  }

  function OnResync(s: Stream, partial: Option<string>, lastIndex: Option<int>, m: AiMessage): Stream {
    s.(needsResync := false, message := Some(m), status := m.status, appliedIndex := lastIndex.GetOr(-1),
       content := if m.status.Completed? || m.status.Cancelled? then m.content.GetOr("") else partial.GetOr(""))
  }

  /** Everything that reaches the store. */
  datatype Input =
    | Event(e: AiEvent)
    | Seeded(m: AiMessage)
    | Resynced(id: string, partial: Option<string>, lastIndex: Option<int>, m: AiMessage)
  {
    predicate Reaches(key: string) {
      match this
      case Event(e) => Addressed(e) && Target(e) == key
      case Seeded(m) => m.id == key
      case Resynced(id, _, _, _) => id == key
    }
  }

  /** What one input does to the one stream it reaches. */
  function Advance(s: Stream, i: Input): Stream
    requires i.Event? ==> Addressed(i.e)
  {
    match i
    case Event(e) => OnEvent(s, e)
    case Seeded(m) => OnSeed(s, m)
    case Resynced(_, partial, lastIndex, m) => OnResync(s, partial, lastIndex, m)
  }

  function Apply(streams: Streams, e: AiEvent): Streams {
    if Addressed(e) then streams[Target(e) := OnEvent(Ensure(streams, Target(e)), e)] else streams
  }

  function Seed(streams: Streams, m: AiMessage): Streams { streams[m.id := OnSeed(Ensure(streams, m.id), m)] }

  function Resync(streams: Streams, id: string, partial: Option<string>, lastIndex: Option<int>, m: AiMessage): Streams {
    streams[id := OnResync(Ensure(streams, id), partial, lastIndex, m)]
  }

  class StreamStore {
    var streams: Streams

    constructor ()
      ensures streams == map[]
    {
      streams := map[];
    }

    method EnsureStream(id: string) returns (s: Stream)
      modifies this
      ensures s == Ensure(old(streams), id) && streams == old(streams)[id := s]
    {
      if id in streams {
        s := streams[id];
      } else {
        s := Stream(Pending, "", -1, false, [], None);
      }
      streams := streams[id := s];
    }

    method ApplyEvent(e: AiEvent)
      modifies this
      ensures streams == Apply(old(streams), e)
    {
      match e {
        case StartedEvent(id) =>
          var s := EnsureStream(id);
          streams := streams[id := s.(status := Streaming, appliedIndex := Max(s.appliedIndex, -1))];
        case ToolEvent(id, step) =>
          var s := EnsureStream(id);
          var at := IndexOf(s.steps, step.id);
          if at >= 0 {
            var before := s.steps[at];
            var merged := step.(caption := step.caption.Or(before.caption), emoji := step.emoji.Or(before.emoji));
            streams := streams[id := s.(steps := s.steps[at := merged])];
          } else {
            streams := streams[id := s.(steps := s.steps + [step])];
          }
        case DeltaEvent(id, index, text) =>
          var s := EnsureStream(id);
          if s.status.Completed? || s.status.Failed? || s.status.Cancelled? {
            return;
          }
          if index <= s.appliedIndex {
            return;
          }
          if index > s.appliedIndex + 1 {
            streams := streams[id := s.(needsResync := true)];
            return;
          }
          streams := streams[id := s.(status := Streaming, content := s.content + text, appliedIndex := index)];
        case CompletedEvent(m) =>
          var s := EnsureStream(m.id);
          var text := if m.content.Some? then m.content.value else s.content;
          streams := streams[m.id := s.(status := m.status, content := text, message := Some(m), needsResync := false)];
        case FailedEvent(id, code) =>
          var s := EnsureStream(id);
          var m := FailedMessage(s.message, id, code);
          streams := streams[id := s.(status := Failed, needsResync := false, message := Some(m))];
        case ConversationEvent =>
      }
    }

    method SeedFrom(m: AiMessage) returns (seeded: Stream)
      modifies this
      ensures streams == Seed(old(streams), m) && seeded == streams[m.id]
    {
      seeded := EnsureStream(m.id);
      seeded := seeded.(message := Some(m), status := m.status);
      if m.status.Pending? || m.status.Streaming? {
        if m.partialContent.Some? {
          seeded := seeded.(content := m.partialContent.value, appliedIndex := m.lastIndex.GetOr(-1));
        }
        if m.steps.Some? {
          seeded := seeded.(steps := m.steps.value);
        }
      } else {
        seeded := seeded.(content := m.content.GetOr(""), appliedIndex := MAX_SAFE_INTEGER);
      }
      streams := streams[m.id := seeded];
    }

    method ResyncFrom(id: string, partial: Option<string>, lastIndex: Option<int>, m: AiMessage)
      modifies this
      ensures streams == Resync(old(streams), id, partial, lastIndex, m)
    {
      var s := EnsureStream(id);
      s := s.(needsResync := false, message := Some(m), status := m.status, appliedIndex := lastIndex.GetOr(-1));
      if m.status.Completed? || m.status.Cancelled? {
        s := s.(content := m.content.GetOr(""));
      } else {
        s := s.(content := partial.GetOr(""));
      }
      streams := streams[id := s];
    }
  }

  // ---- runs ----

  function Step(streams: Streams, i: Input): Streams {
    match i
    case Event(e) => Apply(streams, e)
    case Seeded(m) => Seed(streams, m)
    case Resynced(id, partial, lastIndex, m) => Resync(streams, id, partial, lastIndex, m)
  }

  function Run(inputs: seq<Input>): Streams {
    if inputs == [] then map[] else Step(Run(inputs[..|inputs| - 1]), inputs[|inputs| - 1])
  }

  /** Streams do not mix: an input reaches the one it names and leaves every other as it was. */
  lemma StreamsAreIndependent(streams: Streams, i: Input, id: string)
    ensures Ensure(Step(streams, i), id) ==
            if i.Reaches(id) then Advance(Ensure(streams, id), i) else Ensure(streams, id)
  {
  }
}
