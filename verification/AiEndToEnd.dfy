/** From the generation job to the screen: what a client shows, whatever the network lost, repeated or reordered. */
module AiEndToEnd {
  import opened Common
  import opened AiMessages
  import opened AiSenders
  import opened AiStreams

  /** What one generation attempt leaves behind: its deltas, its full answer, and how it ended. */
  datatype Attempt = Attempt(id: string, deltas: seq<string>, answer: string, outcome: Outcome)

  function AttemptOf(s: Sender, outcome: Outcome): Attempt { Attempt(s.id, s.buffer, s.content, outcome) }

  /** The attempt a whole run of the job makes. */
  function AttemptAt(id: string, ticks: seq<Tick>, breaks: Option<string>, rest: string): Attempt {
    var outcome := OutcomeOf(Rounds(id, ticks), breaks);
    AttemptOf(Finish(Rounds(id, ticks), outcome, rest), outcome)
  }

  ghost predicate Complete(a: Attempt) { !a.outcome.Broke? ==> Concat(a.deltas) == a.answer }

  function Spelled(a: Attempt, n: int): string
    requires 0 <= n <= |a.deltas|
  {
    Concat(a.deltas[..n])
  }

  /** A live row as the API reads it: nothing buffered yet, or the first `n` deltas joined. */
  ghost predicate LivePart(a: Attempt, partial: Option<string>, lastIndex: Option<int>) {
    match partial
    case None => lastIndex == Some(-1)
    case Some(text) => lastIndex.Some? && 0 <= lastIndex.value < |a.deltas| && text == Spelled(a, lastIndex.value + 1)
  }

  /** A finished row carries its text only if it completed. */
  ghost predicate TerminalRow(a: Attempt, m: AiMessage) {
    match a.outcome
    case Finished => m.status == Completed && m.content == Some(a.answer)
    case Stopped => m.status == Cancelled && m.content == None
    case Broke(code) => m.status == Failed && m.content == None
  }

  /** An input the job, or the API reading the job's row and buffer at any moment, can have produced. */
  ghost predicate Genuine(a: Attempt, i: Input) {
    match i
    case Event(DeltaEvent(_, index, text)) => 0 <= index < |a.deltas| && text == a.deltas[index]
    case Event(CompletedEvent(m)) => !a.outcome.Broke? && TerminalRow(a, m)
    case Event(FailedEvent(_, code)) => a.outcome.Broke?
    case Event(_) => true
    case Seeded(m) =>
      if m.status.Live() then m.partialContent.Some? ==> LivePart(a, m.partialContent, m.lastIndex) else TerminalRow(a, m)
    case Resynced(_, partial, lastIndex, m) =>
      if m.status.Live() then LivePart(a, partial, lastIndex) else TerminalRow(a, m) && partial == None && lastIndex == None
  }

  /** Inputs that mark a stream live again without saying where in the text it stands. */
  predicate Reopens(i: Input) {
    match i
    case Event(e) => e.StartedEvent?
    case Seeded(m) => m.status.Live() && m.partialContent.None?
    case Resynced(_, _, _, _) => false
  }

  /** The text is exactly the deltas up to the cursor. */
  ghost predicate InStep(s: Stream, a: Attempt) {
    -1 <= s.appliedIndex < |a.deltas| && s.content == Spelled(a, s.appliedIndex + 1)
  }

  ghost predicate Shows(s: Stream, a: Attempt) {
    match s.status
    case Completed => s.content == a.answer && a.outcome.Finished? && s.appliedIndex >= -1
    case Pending => InStep(s, a)
    case Streaming => InStep(s, a)
    case Cancelled => a.outcome.Stopped? && (InStep(s, a) || (s.content == "" && s.appliedIndex == MAX_SAFE_INTEGER))
    case Failed => a.outcome.Broke? && (InStep(s, a) || (s.content == "" && s.appliedIndex == MAX_SAFE_INTEGER))
  }

  lemma BlankShows(a: Attempt)
    ensures Shows(Blank(), a)
  {
  }

  lemma DeltaShows(s: Stream, a: Attempt, index: int, text: string)
    requires Shows(s, a) && 0 <= index < |a.deltas| && text == a.deltas[index]
    ensures Shows(OnDelta(s, index, text), a)
  {
    if s.status.Live() && index == s.appliedIndex + 1 {
      assert a.deltas[..index + 1] == a.deltas[..index] + [text];
      ConcatAppend(a.deltas[..index], text);
    }
  }

  lemma AdvanceShows(s: Stream, a: Attempt, i: Input)
    requires Shows(s, a) && Genuine(a, i) && i.Reaches(a.id)
    requires !s.status.Live() ==> !Reopens(i)
    ensures Shows(Advance(s, i), a)
  {
    match i {
      case Event(e) => EventShows(s, a, e);
      case Seeded(m) =>
      case Resynced(_, partial, lastIndex, m) =>
    }
  }

  lemma EventShows(s: Stream, a: Attempt, e: AiEvent)
    requires Shows(s, a) && Genuine(a, Event(e)) && Event(e).Reaches(a.id)
    requires !s.status.Live() ==> !Reopens(Event(e))
    ensures Shows(OnEvent(s, e), a)
  {
    if e.DeltaEvent? {
      DeltaShows(s, a, e.index, e.text);
    }
  }

  /**
    * Where the code fails: a late `started`, or the late reply to the send, reopens a finished stream. It does
    * harm exactly when the cursor is not where the text ends.
    */
  lemma ReopeningBreaksUnless(s: Stream, a: Attempt, i: Input)
    requires Shows(s, a) && !s.status.Live() && Genuine(a, i) && i.Reaches(a.id) && Reopens(i)
    requires Complete(a) && (forall d | d in a.deltas :: d != "") && |a.deltas| <= MAX_SAFE_INTEGER
    ensures Shows(Advance(s, i), a) <==>
            s.appliedIndex < |a.deltas| && (s.status.Completed? ==> s.appliedIndex == |a.deltas| - 1)
  {
    if s.appliedIndex < |a.deltas| {
      ConcatPrefix(a.deltas, s.appliedIndex + 1);
      assert a.deltas[..|a.deltas|] == a.deltas;
    }
  }

  // ---- whole runs ----

  /** Every input that reaches the stream is genuine, and none reopens it once it has finished. */
  ghost predicate Served(a: Attempt, inputs: seq<Input>) {
    forall k | 0 <= k < |inputs| && inputs[k].Reaches(a.id) ::
      && Genuine(a, inputs[k])
      && (Reopens(inputs[k]) ==> Ensure(Run(inputs[..k]), a.id).status.Live())
  }

  lemma {:induction false} RunShows(a: Attempt, inputs: seq<Input>)
    requires Served(a, inputs)
    ensures Shows(Ensure(Run(inputs), a.id), a)
  {
    if inputs == [] {
      BlankShows(a);
    } else {
      var n := |inputs| - 1;
      forall k | 0 <= k < n ensures inputs[..n][k] == inputs[k] && inputs[..n][..k] == inputs[..k] {}
      RunShows(a, inputs[..n]);
      StreamsAreIndependent(Run(inputs[..n]), inputs[n], a.id);
      if inputs[n].Reaches(a.id) {
        AdvanceShows(Ensure(Run(inputs[..n]), a.id), a, inputs[n]);
      }
    }
  }

  /**
    * End to end: after any run of the job and any inputs a client got from it, in any order, with any losses and
    * repeats, a live stream shows exactly the deltas up to its cursor, a prefix of what the job wrote, and a
    * completed one shows the whole answer.
    */
  lemma ClientShowsThePrefix(id: string, ticks: seq<Tick>, breaks: Option<string>, rest: string, a: Attempt, inputs: seq<Input>)
    requires a == AttemptAt(id, ticks, breaks, rest) && Served(a, inputs)
    ensures var s := Ensure(Run(inputs), id);
            && (s.status.Live() ==>
                  && -1 <= s.appliedIndex < |a.deltas|
                  && s.content == Concat(a.deltas[..s.appliedIndex + 1])
                  && s.content <= Words(ticks))
            && (s.status.Completed? ==> s.content == Words(ticks))
  {
    AttemptFacts(id, ticks, breaks, rest);
    PrefixIsShown(a, inputs);
  }

  /** What an attempt broadcasts in deltas is a beginning of what the provider said; all of it, unless the stream broke. */
  lemma AttemptFacts(id: string, ticks: seq<Tick>, breaks: Option<string>, rest: string)
    ensures var a := AttemptAt(id, ticks, breaks, rest);
            a.id == id && a.answer == Words(ticks) && Concat(a.deltas) <= a.answer && Complete(a)
  {
    var outcome := OutcomeOf(Rounds(id, ticks), breaks);
    FinishedSender(id, ticks, outcome, rest);
    var done := Finish(Rounds(id, ticks), outcome, rest);
    assert done.content == Concat(done.buffer) + done.pending;
  }

  lemma PrefixIsShown(a: Attempt, inputs: seq<Input>)
    requires Served(a, inputs) && Concat(a.deltas) <= a.answer
    ensures var s := Ensure(Run(inputs), a.id);
            && (s.status.Live() ==> InStep(s, a) && s.content <= a.answer)
            && (s.status.Completed? ==> s.content == a.answer)
  {
    RunShows(a, inputs);
    ShownIsPrefix(Ensure(Run(inputs), a.id), a);
  }

  lemma ShownIsPrefix(s: Stream, a: Attempt)
    requires Shows(s, a) && Concat(a.deltas) <= a.answer
    ensures s.status.Live() ==> InStep(s, a) && s.content <= a.answer
  {
    if s.status.Live() {
      ConcatPrefix(a.deltas, s.appliedIndex + 1);
    }
  }

  lemma FinishedSender(id: string, ticks: seq<Tick>, outcome: Outcome, rest: string)
    ensures var done := Finish(Rounds(id, ticks), outcome, rest);
            KeepsBooks(done) && done.id == id && done.content == Words(ticks) && (!outcome.Broke? ==> done.pending == "")
  {
    RoundsKeepBooks(id, ticks);
    AnswerIsWhatWasSaid(id, ticks);
    FinishKeepsBooks(Rounds(id, ticks), outcome, rest);
    FinishSays(Rounds(id, ticks), outcome, rest);
  }

  lemma FinishSays(s: Sender, outcome: Outcome, rest: string)
    ensures Finish(s, outcome, rest).id == s.id && Finish(s, outcome, rest).content == s.content
  {
    FlushIfSays(s, true);
  }

  // ---- after the completed event ----

  /** A snapshot the API took while the job ran, and that says where in the text it stands. */
  predicate LiveSnapshot(i: Input) {
    match i
    case Event(_) => false
    case Seeded(m) => m.status.Live() && m.partialContent.Some?
    case Resynced(_, _, _, m) => m.status.Live()
  }

  function SnapshotText(i: Input): string
    requires LiveSnapshot(i)
  {
    if i.Seeded? then i.m.partialContent.value else i.partial.GetOr("")
  }

  function SnapshotCursor(i: Input): int
    requires LiveSnapshot(i)
  {
    if i.Seeded? then i.m.lastIndex.GetOr(-1) else i.lastIndex.GetOr(-1)
  }

  ghost predicate Whole(s: Stream, a: Attempt) { s.status.Completed? && s.content == a.answer }

  /** Neither `seed` nor `resync` looks at the stream's own status, so a snapshot read before the end may arrive after it. */
  lemma AnswerStaysIff(s: Stream, a: Attempt, i: Input)
    requires a.outcome.Finished? && Whole(s, a) && Genuine(a, i) && i.Reaches(a.id)
    ensures Advance(s, i).content == a.answer <==> !LiveSnapshot(i) || SnapshotText(i) == a.answer
    ensures Whole(Advance(s, i), a) <==> !LiveSnapshot(i) && !Reopens(i)
  {
    match i {
      case Event(e) => EventKeepsAnswer(s, a, e);
      case Seeded(m) =>
      case Resynced(_, partial, lastIndex, m) =>
    }
  }

  lemma EventKeepsAnswer(s: Stream, a: Attempt, e: AiEvent)
    requires a.outcome.Finished? && Whole(s, a) && Genuine(a, Event(e)) && Event(e).Reaches(a.id)
    ensures OnEvent(s, e).content == a.answer && (Whole(OnEvent(s, e), a) <==> !e.StartedEvent?)
  {
  }

  /** Once the completed event has come, the whole answer is on screen and stays there until a late live snapshot. */
  lemma {:induction false} CompletionShowsEverything(a: Attempt, inputs: seq<Input>, k: nat)
    requires a.outcome.Finished? && Served(a, inputs)
    requires k < |inputs| && inputs[k].Reaches(a.id) && inputs[k].Event? && inputs[k].e.CompletedEvent?
    requires forall j | k < j < |inputs| && inputs[j].Reaches(a.id) :: !LiveSnapshot(inputs[j])
    ensures Whole(Ensure(Run(inputs), a.id), a)
  {
    var n := |inputs| - 1;
    ServedBefore(a, inputs, n);
    StreamsAreIndependent(Run(inputs[..n]), inputs[n], a.id);
    if k < n {
      CompletionShowsEverything(a, inputs[..n], k);
      if inputs[n].Reaches(a.id) {
        AnswerStaysIff(Ensure(Run(inputs[..n]), a.id), a, inputs[n]);
      }
    }
  }

  lemma ServedBefore(a: Attempt, inputs: seq<Input>, n: nat)
    requires Served(a, inputs) && n <= |inputs|
    ensures Served(a, inputs[..n])
  {
    forall k | 0 <= k < n ensures inputs[..n][k] == inputs[k] && inputs[..n][..k] == inputs[..k] {}
  }

  /** The late snapshot cuts the text to a shorter one, marks the stream live, and nothing asks for a resync. */
  lemma LateSnapshotCutsTheText(s: Stream, a: Attempt, m: AiMessage, n: nat)
    requires a.outcome.Finished? && Complete(a) && (forall d | d in a.deltas :: d != "")
    requires Whole(s, a) && m.id == a.id && m.status.Live() && n + 1 < |a.deltas|
    ensures var i := Resynced(a.id, Some(Spelled(a, n + 1)), Some(n), m);
            var s' := Advance(s, i);
            Genuine(a, i) && s'.status.Live() && |s'.content| < |a.answer| && !s'.needsResync
  {
    ConcatPrefix(a.deltas, n + 1);
    assert a.deltas[..|a.deltas|] == a.deltas;
  }

  /** The run that does it: a gap asks for the API's row, and the row read before the end comes back after it. */
  function LateSnapshotRun(id: string, x: string, y: string, done: AiMessage, live: AiMessage): seq<Input> {
    [Event(DeltaEvent(id, 1, y)), Event(CompletedEvent(done)), Resynced(id, Some(x), Some(0), live)]
  }

  lemma LateSnapshotHappens(id: string, x: string, y: string, done: AiMessage, live: AiMessage)
    requires done.id == id && done.status == Completed && done.content == Some(x + y) && live.status.Live() && y != ""
    ensures var a := Attempt(id, [x, y], x + y, Finished);
            var inputs := LateSnapshotRun(id, x, y, done, live);
            var asked, shown, s := Ensure(Run(inputs[..1]), id), Ensure(Run(inputs[..2]), id), Ensure(Run(inputs), id);
            && Served(a, inputs) && asked.needsResync && Whole(shown, a)
            && s.status.Live() && s.content == x && s.content != a.answer && !s.needsResync
  {
    var inputs := LateSnapshotRun(id, x, y, done, live);
    assert inputs[..1] == [inputs[0]] && inputs[..2] == inputs[..1] + [inputs[1]] && inputs == inputs[..2] + [inputs[2]];
    assert [inputs[0]][..0] == [] && inputs[..2][..1] == inputs[..1];
    assert Concat([x, y][..1]) == x by { assert [x, y][..1] == [] + [x]; ConcatAppend([], x); }
  }

  // ---- what is missed in silence ----

  /** The highest delta index ever delivered. */
  function Heard(id: string, inputs: seq<Input>): int {
    if inputs == [] then -1
    else
      var before, last := Heard(id, inputs[..|inputs| - 1]), inputs[|inputs| - 1];
      if last.Reaches(id) && last.Event? && last.e.DeltaEvent? then Max(before, last.e.index) else before
  }

  /** The last live snapshot to arrive stands behind a delta that was delivered before it. */
  predicate Overtaken(id: string, inputs: seq<Input>) {
    if inputs == [] then false
    else
      var before, last := inputs[..|inputs| - 1], inputs[|inputs| - 1];
      if last.Reaches(id) && LiveSnapshot(last) then SnapshotCursor(last) < Heard(id, before) else Overtaken(id, before)
  }

  /** A live stream that asks for no resync has applied every delta up to `heard`. */
  predicate Caught(s: Stream, heard: int) { s.status.Live() && !s.needsResync ==> heard <= s.appliedIndex }

  lemma DeltaIsCaught(s: Stream, heard: int, index: int, text: string)
    requires Caught(s, heard)
    ensures Caught(OnDelta(s, index, text), Max(heard, index))
  {
  }

  lemma OtherIsCaught(s: Stream, i: Input, heard: int)
    requires Caught(s, heard) && !LiveSnapshot(i) && (!s.status.Live() ==> !Reopens(i))
    requires i.Event? ==> Addressed(i.e) && !i.e.DeltaEvent?
    requires i.Event? && i.e.CompletedEvent? ==> !i.e.message.status.Live()
    requires i.Resynced? || i.Seeded? ==> Reopens(i) || !i.m.status.Live()
    ensures Caught(Advance(s, i), heard)
  {
  }

  /** One snapshot leaves no delivered delta out in silence exactly if its cursor is not behind one, or the flag stays up. */
  lemma SnapshotCatchesIff(s: Stream, i: Input, heard: int)
    requires LiveSnapshot(i)
    ensures Caught(Advance(s, i), heard) <==> heard <= SnapshotCursor(i) || (i.Seeded? && s.needsResync)
  {
  }

  /** A live stream that asks for no resync has applied every delta ever delivered, unless a snapshot was overtaken by one. */
  lemma {:induction false} MissesAreFlagged(a: Attempt, inputs: seq<Input>)
    requires Served(a, inputs) && !Overtaken(a.id, inputs)
    ensures Caught(Ensure(Run(inputs), a.id), Heard(a.id, inputs))
  {
    if inputs != [] {
      var n := |inputs| - 1;
      var s := Ensure(Run(inputs[..n]), a.id);
      ServedBefore(a, inputs, n);
      StreamsAreIndependent(Run(inputs[..n]), inputs[n], a.id);
      if !inputs[n].Reaches(a.id) {
        MissesAreFlagged(a, inputs[..n]);
      } else if !LiveSnapshot(inputs[n]) {
        MissesAreFlagged(a, inputs[..n]);
        if inputs[n].Event? && inputs[n].e.DeltaEvent? {
          DeltaIsCaught(s, Heard(a.id, inputs[..n]), inputs[n].e.index, inputs[n].e.text);
        } else {
          assert Genuine(a, inputs[n]);
          OtherIsCaught(s, inputs[n], Heard(a.id, inputs[..n]));
        }
      }
    }
  }

  /** The condition is exact: a resync that was overtaken takes the flag down and leaves a delivered delta out. */
  lemma OvertakenResyncHidesIff(id: string, inputs: seq<Input>)
    requires inputs != []
    requires var last := inputs[|inputs| - 1]; last.Resynced? && last.Reaches(id) && LiveSnapshot(last)
    ensures Caught(Ensure(Run(inputs), id), Heard(id, inputs)) <==> !Overtaken(id, inputs)
  {
    var n := |inputs| - 1;
    StreamsAreIndependent(Run(inputs[..n]), inputs[n], id);
    SnapshotCatchesIff(Ensure(Run(inputs[..n]), id), inputs[n], Heard(id, inputs));
  }

  /** So once the last delta is in and no resync is asked for, the live text is already the whole answer. */
  lemma LastDeltaCompletesTheText(a: Attempt, inputs: seq<Input>)
    requires Served(a, inputs) && Complete(a) && !a.outcome.Broke? && !Overtaken(a.id, inputs)
    requires Heard(a.id, inputs) == |a.deltas| - 1
    ensures var s := Ensure(Run(inputs), a.id); s.status.Live() && !s.needsResync ==> s.content == a.answer
  {
    MissesAreFlagged(a, inputs);
    RunShows(a, inputs);
    AtTheEnd(Ensure(Run(inputs), a.id), a);
  }

  lemma AtTheEnd(s: Stream, a: Attempt)
    ensures InStep(s, a) && s.appliedIndex >= |a.deltas| - 1 ==> s.content == Concat(a.deltas)
  {
    assert a.deltas[..|a.deltas|] == a.deltas;
  }

  /** A cancelled answer keeps its text when the event arrives, and loses it when the client asks the API instead. */
  lemma CancelledTextSurvivesOnlyTheEvent(s: Stream, a: Attempt, m: AiMessage)
    requires a.outcome.Stopped? && TerminalRow(a, m)
    ensures OnEvent(s, CompletedEvent(m)).content == s.content
    ensures OnResync(s, None, None, m).content == s.content <==> s.content == ""
  {
  }

  // ---- the sender's own traffic is genuine ----

  lemma {:induction false} DeltaIsNumbered(log: seq<AiEvent>, k: nat)
    requires LogOk(log) && k < |log| && log[k].DeltaEvent?
    ensures 0 <= log[k].index < |Deltas(log)| && log[k].text == Deltas(log)[log[k].index]
  {
    var n := |log| - 1;
    if k < n {
      PrefixIsOk(log, n);
      DeltaIsNumbered(log[..n], k);
      var i := log[k].index;
      assert Deltas(log[..n])[i] == Deltas(log)[i];
    }
  }

  lemma PrefixIsOk(log: seq<AiEvent>, n: nat)
    requires LogOk(log) && n <= |log|
    ensures LogOk(log[..n])
  {
    forall i | 0 <= i < n ensures log[..n][i] == log[i] && log[..n][..i] == log[..i] {}
  }

  /** Every event the finished job broadcast for its message is a genuine input. */
  lemma BroadcastsAreGenuine(id: string, ticks: seq<Tick>, breaks: Option<string>, rest: string, k: nat)
    requires var done := Finish(Rounds(id, ticks), OutcomeOf(Rounds(id, ticks), breaks), rest); k < |done.log|
    ensures var outcome := OutcomeOf(Rounds(id, ticks), breaks);
            var done := Finish(Rounds(id, ticks), outcome, rest);
            Genuine(AttemptOf(done, outcome), Event(done.log[k]))
  {
    var s0 := Rounds(id, ticks);
    var outcome := OutcomeOf(s0, breaks);
    var done := Finish(s0, outcome, rest);
    RoundsKeepBooks(id, ticks);
    FinishKeepsBooks(s0, outcome, rest);
    NothingEndsEarly(id, ticks);
    if done.log[k].DeltaEvent? {
      DeltaIsNumbered(done.log, k);
    }
  }

  ghost predicate StillOpen(log: seq<AiEvent>) {
    forall e | e in log :: !e.CompletedEvent? && !e.FailedEvent?
  }

  lemma FlushStaysOpen(s: Sender, due: bool)
    requires StillOpen(s.log)
    ensures StillOpen(FlushIf(s, due).log) && FlushIf(s, due).id == s.id
  {
  }

  lemma RoundStaysOpen(s: Sender, t: Tick)
    requires StillOpen(s.log)
    ensures StillOpen(Round(s, t).log) && Round(s, t).id == s.id
  {
    FlushStaysOpen(s, true);
    var s' := Take(s, t.chunk);
    assert StillOpen(s'.log) && s'.id == s.id;
    FlushStaysOpen(s', t.due || |s'.pending| >= FLUSH_CHARS);
  }

  lemma {:induction false} NothingEndsEarly(id: string, ticks: seq<Tick>)
    ensures StillOpen(Rounds(id, ticks).log) && StillOpen(FlushIf(Rounds(id, ticks), true).log)
    ensures Rounds(id, ticks).id == id
  {
    if ticks != [] {
      NothingEndsEarly(id, ticks[..|ticks| - 1]);
      RoundStaysOpen(Rounds(id, ticks[..|ticks| - 1]), ticks[|ticks| - 1]);
    }
    FlushStaysOpen(Rounds(id, ticks), true);
  }

  /** What the API serves while the job runs, read between any two rounds, is a genuine snapshot too. */
  lemma LiveReadsAreGenuine(id: string, ticks: seq<Tick>, i: nat, breaks: Option<string>, rest: string, m: AiMessage)
    requires i <= |ticks| && m.status.Live()
    ensures var outcome := OutcomeOf(Rounds(id, ticks), breaks);
            var buffer := Rounds(id, ticks[..i]).buffer;
            Genuine(AttemptOf(Finish(Rounds(id, ticks), outcome, rest), outcome),
                    Resynced(id, if buffer == [] then None else Some(Concat(buffer)), Some(|buffer| - 1), m))
  {
    var outcome := OutcomeOf(Rounds(id, ticks), breaks);
    var done := Finish(Rounds(id, ticks), outcome, rest);
    var buffer := Rounds(id, ticks[..i]).buffer;
    BufferOnlyGrows(id, ticks, i);
    assert buffer <= done.buffer;
    assert done.buffer[..|buffer|] == buffer;
  }

  lemma {:induction false} DeltasOfPrefix(log: seq<AiEvent>, k: nat)
    requires k <= |log|
    ensures Deltas(log[..k]) <= Deltas(log)
  {
    if k < |log| {
      DeltasOfPrefix(log[..|log| - 1], k);
      assert log[..|log| - 1][..k] == log[..k];
    } else {
      assert log[..k] == log;
    }
  }

  /** A tool step's `at_char` is the length of the text on a screen that has applied the deltas sent before it. */
  lemma ToolStepsLandInPlace(id: string, ticks: seq<Tick>, breaks: Option<string>, rest: string, k: nat, s: Stream)
    requires var outcome := OutcomeOf(Rounds(id, ticks), breaks);
             var done := Finish(Rounds(id, ticks), outcome, rest);
             && k < |done.log| && done.log[k].ToolEvent?
             && InStep(s, AttemptOf(done, outcome)) && s.appliedIndex + 1 == |Deltas(done.log[..k])|
    ensures |s.content| == Finish(Rounds(id, ticks), OutcomeOf(Rounds(id, ticks), breaks), rest).log[k].step.atChar
  {
    var outcome := OutcomeOf(Rounds(id, ticks), breaks);
    var done := Finish(Rounds(id, ticks), outcome, rest);
    RoundsKeepBooks(id, ticks);
    FinishKeepsBooks(Rounds(id, ticks), outcome, rest);
    DeltasOfPrefix(done.log, k);
    assert done.buffer[..s.appliedIndex + 1] == Deltas(done.log[..k]);
  }
}
