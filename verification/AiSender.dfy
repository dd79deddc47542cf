/** The generation job's streaming loop: batches the provider's chunks into numbered deltas and a replay buffer. */
module AiSenders {
  import opened Common
  import opened AiMessages

  datatype Chunk =
    | Text(text: string)
    | Tool(id: string, tool: string, caption: Option<string>, emoji: Option<string>, status: string)
    | Usage(usage: string)
    | Done(finishReason: Option<string>)

  /** One round of the loop: the cancel flag and the flush clock, as read in that round. */
  datatype Tick = Tick(chunk: Chunk, cancel: bool, due: bool)

  const FLUSH_CHARS := 40

  /** The job's variables, its two lists in Redis, and everything it has broadcast. */
  datatype Sender = Sender(
    id: string, content: string, pending: string, index: int, buffer: seq<string>, tools: seq<ToolStep>,
    log: seq<AiEvent>, usage: Option<string>, finishReason: Option<string>, cancelled: bool)

  function Begin(id: string): Sender {
    Sender(id, "", "", -1, [], [], [StartedEvent(id)], None, None, false)
  }

  function Flush(s: Sender): Sender {
    s.(index := s.index + 1, buffer := s.buffer + [s.pending],
       log := s.log + [DeltaEvent(s.id, s.index + 1, s.pending)], pending := "")
  }

  function FlushIf(s: Sender, due: bool): Sender { if s.pending != "" && due then Flush(s) else s }

  function Announce(s: Sender, c: Chunk): Sender
    requires c.Tool?
  {
    var step := ToolStep(c.id, c.tool, c.caption, c.emoji, c.status, |s.content|);
    s.(tools := s.tools + [step], log := s.log + [ToolEvent(s.id, step)])
  }

  function Take(s: Sender, c: Chunk): Sender {
    match c
    case Text(text) => s.(pending := s.pending + text, content := s.content + text)
    case Tool(_, _, _, _, _) => Announce(FlushIf(s, true), c)
    case Usage(usage) => s.(usage := Some(usage))
    case Done(reason) => s.(finishReason := reason)
  }

  function Round(s: Sender, t: Tick): Sender {
    if s.cancelled then s
    else if t.cancel then s.(cancelled := true)
    else
      var s' := Take(s, t.chunk);
      FlushIf(s', t.due || |s'.pending| >= FLUSH_CHARS)
  }

  function Rounds(id: string, ticks: seq<Tick>): Sender {
    if ticks == [] then Begin(id) else Round(Rounds(id, ticks[..|ticks| - 1]), ticks[|ticks| - 1])
  }

  /** The finished job: the last words are flushed, the answer saved and announced; a broken one only says so. */
  function Finish(s: Sender, outcome: Outcome, rest: string): Sender {
    match outcome
    case Broke(code) => s.(log := s.log + [FailedEvent(s.id, code)])
    case _ =>
      var s' := FlushIf(s, true);
      s'.(log := s'.log + [CompletedEvent(Serialised(s'.id, s'.content, outcome, rest))])
  }

  /** Only a completed answer's text is serialised. */
  function Serialised(id: string, content: string, outcome: Outcome, rest: string): AiMessage {
    match outcome
    case Finished => AiMessage(id, Completed, Some(content), None, None, None, None, rest)
    case Stopped => AiMessage(id, Cancelled, None, None, None, None, None, rest)
    case Broke(code) => AiMessage(id, Failed, None, Some(code), None, None, None, rest)
  }

  function OutcomeOf(s: Sender, breaks: Option<string>): Outcome {
    if breaks.Some? then Broke(breaks.value) else if s.cancelled then Stopped else Finished
  }

  /** The job while it generates: its variables, its two lists in Redis, and what it has broadcast. */
  class Generation {
    const id: string
    var content: string
    var pending: string
    var index: int
    var buffer: seq<string>
    var tools: seq<ToolStep>
    var log: seq<AiEvent>
    var usage: Option<string>
    var finishReason: Option<string>
    var cancelled: bool

    function Model(): Sender
      reads this
    {
      Sender(id, content, pending, index, buffer, tools, log, usage, finishReason, cancelled)
    }

    constructor (id: string)
      ensures Model() == Begin(id)
    {
      this.id := id;
      content, pending, index, buffer, tools, log := "", "", -1, [], [], [StartedEvent(id)];
      usage, finishReason, cancelled := None, None, false;
    }

    /** Number the pending words, push them to the replay buffer and broadcast them. */
    method FlushPending(due: bool)
      modifies this
      ensures Model() == FlushIf(old(Model()), due)
    {
      if pending != "" && due {
        index := index + 1;
        buffer := buffer + [pending];
        log := log + [DeltaEvent(id, index, pending)];
        pending := "";
      }
    }

    method HandleChunk(c: Chunk)
      modifies this
      ensures Model() == Take(old(Model()), c)
    {
      match c {
        case Text(text) =>
          pending := pending + text;
          content := content + text;
        case Tool(stepId, tool, caption, emoji, status) =>
          FlushPending(true);
          var step := ToolStep(stepId, tool, caption, emoji, status, |content|);
          tools := tools + [step];
          log := log + [ToolEvent(id, step)];
        case Usage(u) => usage := Some(u);
        case Done(reason) => finishReason := reason;
      }
    }

    /** The loop over the provider's chunks, up to its end or the round that sees the cancel flag. */
    method StreamChunks(ticks: seq<Tick>)
      requires Model() == Begin(id)
      modifies this
      ensures Model() == Rounds(id, ticks)
    {
      var i := 0;
      while i < |ticks| && !cancelled
        invariant 0 <= i <= |ticks| && Model() == Rounds(id, ticks[..i])
      {
        assert ticks[..i + 1][..i] == ticks[..i];
        var t := ticks[i];
        i := i + 1;
        if t.cancel {
          cancelled := true;
        } else {
          HandleChunk(t.chunk);
          FlushPending(t.due || |pending| >= FLUSH_CHARS);
        }
      }
      CancelEndsIt(id, ticks, i);
    }

    /** The tail that never hit the flush threshold, and the announcement; a broken stream is only announced. */
    method Conclude(breaks: Option<string>, rest: string) returns (outcome: Outcome)
      modifies this
      ensures outcome == OutcomeOf(old(Model()), breaks) && Model() == Finish(old(Model()), outcome, rest)
    {
      if breaks.Some? {
        outcome := Broke(breaks.value);
        log := log + [FailedEvent(id, breaks.value)];
      } else {
        outcome := if cancelled then Stopped else Finished;
        FlushPending(true);
        log := log + [CompletedEvent(Serialised(id, content, outcome, rest))];
      }
    }
  }

  /** One generation attempt. `breaks` is the error code when the provider's stream throws after the last tick. */
  method Generate(id: string, ticks: seq<Tick>, breaks: Option<string>, rest: string) returns (done: Sender, outcome: Outcome)
    ensures var s := Rounds(id, ticks); outcome == OutcomeOf(s, breaks) && done == Finish(s, outcome, rest)
    ensures KeepsBooks(done) && (!outcome.Broke? ==> done.pending == "")
  {
    var job := new Generation(id);
    job.StreamChunks(ticks);
    outcome := job.Conclude(breaks, rest);
    done := job.Model();
    RoundsKeepBooks(id, ticks);
    FinishKeepsBooks(Rounds(id, ticks), outcome, rest);
  }

  /** Nothing after the cancelled round changes anything. */
  lemma {:induction false} CancelEndsIt(id: string, ticks: seq<Tick>, i: nat)
    requires i <= |ticks| && (i == |ticks| || Rounds(id, ticks[..i]).cancelled)
    ensures Rounds(id, ticks) == Rounds(id, ticks[..i])
  {
    if i < |ticks| {
      var n := |ticks| - 1;
      assert ticks[..n][..i] == ticks[..i];
      if i < n {
        CancelEndsIt(id, ticks[..n], i);
      }
    } else {
      assert ticks[..i] == ticks;
    }
  }

  // ---- the books ----

  /** The delta texts in a log, in broadcast order. */
  function Deltas(log: seq<AiEvent>): seq<string> {
    if log == [] then []
    else
      var last := log[|log| - 1];
      Deltas(log[..|log| - 1]) + if last.DeltaEvent? then [last.text] else []
  }

  /** Deltas are numbered from 0 without a gap; a tool step says exactly how much text went out before it. */
  ghost predicate LogOk(log: seq<AiEvent>) {
    && (forall i | 0 <= i < |log| && log[i].DeltaEvent? :: log[i].index == |Deltas(log[..i])| && log[i].text != "")
    && (forall i | 0 <= i < |log| && log[i].ToolEvent? :: log[i].step.atChar == |Concat(Deltas(log[..i]))|)
  }

  /** What was broadcast, what is replayable and what is still held back add up to the answer so far. */
  ghost predicate KeepsBooks(s: Sender) {
    && s.content == Concat(s.buffer) + s.pending
    && Deltas(s.log) == s.buffer && s.index == |s.buffer| - 1
    && LogOk(s.log) && (forall d | d in s.buffer :: d != "")
  }

  lemma LogGrows(log: seq<AiEvent>, e: AiEvent)
    requires LogOk(log)
    requires e.DeltaEvent? ==> e.index == |Deltas(log)| && e.text != ""
    requires e.ToolEvent? ==> e.step.atChar == |Concat(Deltas(log))|
    ensures LogOk(log + [e])
    ensures Deltas(log + [e]) == Deltas(log) + if e.DeltaEvent? then [e.text] else []
  {
    var log' := log + [e];
    assert log'[..|log|] == log;
    assert forall i | 0 <= i < |log| :: log'[..i] == log[..i];
  }

  lemma FlushKeepsBooks(s: Sender, due: bool)
    requires KeepsBooks(s)
    ensures KeepsBooks(FlushIf(s, due)) && (due ==> FlushIf(s, due).pending == "")
    ensures FlushIf(s, due).content == s.content && |FlushIf(s, due).pending| <= |s.pending|
  {
    if s.pending != "" && due {
      LogGrows(s.log, DeltaEvent(s.id, s.index + 1, s.pending));
      ConcatAppend(s.buffer, s.pending);
    }
  }

  lemma TakeKeepsBooks(s: Sender, c: Chunk)
    requires KeepsBooks(s)
    ensures KeepsBooks(Take(s, c))
  {
    match c {
      case Text(text) =>
      case Tool(_, _, _, _, _) =>
        FlushKeepsBooks(s, true);
        var s' := FlushIf(s, true);
        LogGrows(s'.log, ToolEvent(s'.id, ToolStep(c.id, c.tool, c.caption, c.emoji, c.status, |s'.content|)));
      case Usage(_) =>
      case Done(_) =>
    }
  }

  lemma RoundKeepsBooks(s: Sender, t: Tick)
    requires KeepsBooks(s) && |s.pending| < FLUSH_CHARS
    ensures KeepsBooks(Round(s, t)) && |Round(s, t).pending| < FLUSH_CHARS
  {
    if !s.cancelled && !t.cancel {
      TakeKeepsBooks(s, t.chunk);
      var s' := Take(s, t.chunk);
      FlushKeepsBooks(s', t.due || |s'.pending| >= FLUSH_CHARS);
    }
  }

  /** After every round the books balance, and fewer than forty characters are held back. */
  lemma {:induction false} RoundsKeepBooks(id: string, ticks: seq<Tick>)
    ensures KeepsBooks(Rounds(id, ticks)) && |Rounds(id, ticks).pending| < FLUSH_CHARS
  {
    if ticks == [] {
      assert [StartedEvent(id)][..0] == [];
    } else {
      RoundsKeepBooks(id, ticks[..|ticks| - 1]);
      RoundKeepsBooks(Rounds(id, ticks[..|ticks| - 1]), ticks[|ticks| - 1]);
    }
  }

  lemma FinishKeepsBooks(s: Sender, outcome: Outcome, rest: string)
    requires KeepsBooks(s)
    ensures KeepsBooks(Finish(s, outcome, rest))
    ensures !outcome.Broke? ==> Finish(s, outcome, rest).pending == ""
  {
    match outcome {
      case Broke(code) => LogGrows(s.log, FailedEvent(s.id, code));
      case _ =>
        FlushKeepsBooks(s, true);
        var s' := FlushIf(s, true);
        LogGrows(s'.log, CompletedEvent(Serialised(s'.id, s'.content, outcome, rest)));
    }
  }

  predicate CancelSeen(ticks: seq<Tick>) { exists t | t in ticks :: t.cancel }

  /** The words the provider produced before the cancel flag was first seen. */
  function Words(ticks: seq<Tick>): string {
    if ticks == [] then ""
    else
      var last := ticks[|ticks| - 1];
      Words(ticks[..|ticks| - 1]) + if !CancelSeen(ticks) && last.chunk.Text? then last.chunk.text else ""
  }

  /** However the flushes fall, the answer is what the provider said before the cancel. */
  lemma {:induction false} AnswerIsWhatWasSaid(id: string, ticks: seq<Tick>)
    ensures var s := Rounds(id, ticks);
            s.content == Words(ticks) && (s.cancelled <==> CancelSeen(ticks)) && s.id == id
  {
    if ticks != [] {
      var n := |ticks| - 1;
      AnswerIsWhatWasSaid(id, ticks[..n]);
      CancelSeenLast(ticks);
      RoundSays(Rounds(id, ticks[..n]), ticks[n]);
    }
  }

  lemma CancelSeenLast(ticks: seq<Tick>)
    requires ticks != []
    ensures CancelSeen(ticks) <==> CancelSeen(ticks[..|ticks| - 1]) || ticks[|ticks| - 1].cancel
  {
    assert ticks == ticks[..|ticks| - 1] + [ticks[|ticks| - 1]];
  }

  /** A round adds the chunk's text to the answer, unless the cancel flag has been seen. */
  lemma RoundSays(s: Sender, t: Tick)
    ensures var s' := Round(s, t);
            && s'.id == s.id && s'.cancelled == (s.cancelled || t.cancel)
            && s'.content == s.content + if !s'.cancelled && t.chunk.Text? then t.chunk.text else ""
  {
    FlushIfSays(s, true);
    FlushIfSays(Take(s, t.chunk), t.due || |Take(s, t.chunk).pending| >= FLUSH_CHARS);
  }

  lemma FlushIfSays(s: Sender, due: bool)
    ensures var s' := FlushIf(s, due); s'.id == s.id && s'.cancelled == s.cancelled && s'.content == s.content
  {
  }

  // ---- snapshots taken while it runs ----

  ghost predicate Extends(s: Sender, s': Sender) {
    s.id == s'.id && s.buffer <= s'.buffer && s.content <= s'.content
  }

  lemma RoundExtends(s: Sender, t: Tick)
    ensures Extends(s, Round(s, t))
  {
  }

  /** Whoever reads the replay buffer at any moment reads a prefix of the final one. */
  lemma {:induction false} BufferOnlyGrows(id: string, ticks: seq<Tick>, i: nat)
    requires i <= |ticks|
    ensures Extends(Rounds(id, ticks[..i]), Rounds(id, ticks))
  {
    if i < |ticks| {
      var n := |ticks| - 1;
      BufferOnlyGrows(id, ticks[..n], i);
      assert ticks[..n][..i] == ticks[..i];
      RoundExtends(Rounds(id, ticks[..n]), ticks[n]);
    } else {
      assert ticks[..i] == ticks;
    }
  }
}
