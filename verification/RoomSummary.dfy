/** The room bot's rolling summary: a job that writes it, a hook that drops it, and the checks in between. */
module RoomSummaries {
  import opened Common

  // ---- trimming and clipping ----

  predicate IsSpace(c: char) { c == ' ' || c == '\t' || c == '\n' || c == '\r' || c == '\0' || c == '\U{0B}' }

  function TrimLeft(s: string): (r: string)
    ensures r == [] || !IsSpace(r[0])
  {
    if s != "" && IsSpace(s[0]) then TrimLeft(s[1..]) else s
  }

  function TrimRight(s: string): (r: string)
    ensures r <= s && (r == [] || !IsSpace(r[|r| - 1]))
  {
    if s != "" && IsSpace(s[|s| - 1]) then TrimRight(s[..|s| - 1]) else s
  }

  function Trim(s: string): string { TrimRight(TrimLeft(s)) }

  /** A tenth shorter at a time until the estimate fits: a trimmed beginning of the text, or nothing. */
  method Clip(text: string, maxTokens: int, estimate: string -> nat) returns (clipped: string)
    ensures clipped <= Trim(text) && Trim(clipped) == clipped
    ensures clipped != "" ==> estimate(clipped) <= maxTokens
    ensures clipped == Trim(text) || estimate(Trim(text)) > maxTokens
  {
    clipped := Trim(text);
    TrimmedIsFixed(text);
    while clipped != "" && estimate(clipped) > maxTokens
      invariant clipped <= Trim(text) && Trim(clipped) == clipped
      invariant clipped == Trim(text) || estimate(Trim(text)) > maxTokens
      decreases |clipped|
    {
      var cut := clipped[..|clipped| * 9 / 10];
      CutIsTrimmedLeft(clipped, |cut|);
      clipped := Trim(cut);
      TrimmedIsFixed(cut);
    }
  }

  lemma TrimmedIsFixed(s: string)
    ensures Trim(Trim(s)) == Trim(s)
  {
  }

  lemma CutIsTrimmedLeft(s: string, n: nat)
    requires Trim(s) == s && n <= |s|
    ensures Trim(s[..n]) <= s
  {
    assert TrimLeft(s) == s by { TrimsOnce(s); }
    assert TrimLeft(s[..n]) == s[..n];
  }

  lemma TrimsOnce(s: string)
    requires Trim(s) == s
    ensures TrimLeft(s) == s
  {
    TrimLeftShortens(s);
  }

  lemma TrimLeftShortens(s: string)
    ensures |TrimLeft(s)| <= |s| && (|TrimLeft(s)| == |s| ==> TrimLeft(s) == s)
  {
  }

  // ---- the room's lines and the summary row ----

  /**
    * `version` counts the edits and the delete of a line and so names its text; `edited` and `deleted` are its
    * whole-second stamps; `quotable` is whether it is a chat line with something to say.
    */
  datatype Line = Line(version: nat, edited: Option<int>, deleted: Option<int>, quotable: bool)

  type Lines = map<nat, Line>

  /** `quotes` names the lines, and the version of each, that the summary's text was made from. */
  datatype Summary = Summary(text: string, fromSeq: int, upToSeq: int, sourceReadAt: int, quotes: map<nat, nat>)

  /** A mention's transcript: the range of lines the bot was sent, when it was read, and what it said. */
  datatype Mention = Mention(fromSeq: int, toSeq: int, sentAt: int, seen: map<nat, nat>)

  /** Where the job is; `existing` is its own copy of the row. */
  datatype Phase =
    | Idle
    | ClockRead(m: Mention, readAt: int)
    | Found(m: Mention, readAt: int, existing: Option<Summary>)
    | OldStale(m: Mention, readAt: int)
    | OldChecked(m: Mention, readAt: int, existing: Option<Summary>)
    | Transcribed(m: Mention, readAt: int, existing: Option<Summary>, from: int, quotes: map<nat, nat>)
    | Answered(m: Mention, readAt: int, existing: Option<Summary>, from: int, quotes: map<nat, nat>, text: string)
    | Rechecked(m: Mention, readAt: int, existing: Option<Summary>, from: int, quotes: map<nat, nat>, text: string)
    | Confirmed(m: Mention, readAt: int, existing: Option<Summary>, from: int, quotes: map<nat, nat>, text: string)
  {
    /** From here on the job holds the lines it quotes. */
    predicate Quoting() { Transcribed? || Answered? || Rechecked? || Confirmed? }
  }

  /** `clock` is in milliseconds; `hooks` are updates whose model hook has yet to run; `reader` holds a row about to be used. */
  datatype Room = Room(
    clock: nat, lines: Lines, row: Option<Summary>, hooks: multiset<nat>, mentions: seq<Mention>,
    job: Phase, reader: Option<Summary>)

  function Second(ms: int): int { ms / 1000 }

  predicate StampedSince(l: Line, since: int) {
    (l.deleted.Some? && l.deleted.value >= since) || (l.edited.Some? && l.edited.value >= since)
  }

  predicate Changed(lines: Lines, from: int, to: int, since: int) {
    exists s | s in lines :: from <= s <= to && StampedSince(lines[s], since)
  }

  function Versions(lines: Lines, from: int, to: int): map<nat, nat> {
    map s | s in lines && from <= s <= to :: lines[s].version
  }

  /** The lines the job may quote: still there, sayable, and not edited since the bot was sent them. */
  function Transcript(lines: Lines, from: int, to: int, sentAt: int): map<nat, nat> {
    map s | s in lines && from <= s <= to && lines[s].deleted.None? && lines[s].quotable
            && (lines[s].edited.None? || lines[s].edited.value < Second(sentAt)) :: lines[s].version
  }

  // ---- writers ----

  function Sent(r: Room, seqNo: nat, quotable: bool): Room
    requires forall s | s in r.lines :: s < seqNo
  {
    r.(lines := r.lines[seqNo := Line(0, None, None, quotable)])
  }

  /** One atomic update of text and stamp; the hook runs after it. */
  function Edit(r: Room, seqNo: nat, stamp: int, quotable: bool): Room
    requires seqNo in r.lines
  {
    var l := r.lines[seqNo];
    r.(lines := r.lines[seqNo := l.(version := l.version + 1, edited := Some(stamp), quotable := quotable)],
       hooks := r.hooks + multiset{seqNo})
  }

  function Delete(r: Room, seqNo: nat, stamp: int): Room
    requires seqNo in r.lines
  {
    var l := r.lines[seqNo];
    r.(lines := r.lines[seqNo := l.(version := l.version + 1, deleted := Some(stamp))], hooks := r.hooks + multiset{seqNo})
  }

  function ForgetCovering(r: Room, seqNo: nat): Room {
    if r.row.Some? && r.row.value.fromSeq <= seqNo <= r.row.value.upToSeq then r.(row := None) else r
  }

  function Hook(r: Room, seqNo: nat): Room
    requires seqNo in r.hooks
  {
    ForgetCovering(r.(hooks := r.hooks - multiset{seqNo}), seqNo)
  }

  function Mentioned(r: Room, from: int, to: int): Room {
    r.(mentions := r.mentions + [Mention(from, to, r.clock, Versions(r.lines, from, to))])
  }

  // ---- the job, one database access or provider call at a time ----

  function JobBegins(r: Room, k: nat, eligible: bool): Room
    requires r.job.Idle? && k < |r.mentions|
  {
    if eligible then r.(job := ClockRead(r.mentions[k], Second(r.clock))) else r
  }

  function JobFinds(r: Room): Room
    requires r.job.ClockRead?
  {
    if r.row.Some? && r.row.value.upToSeq >= r.job.m.toSeq
    then r.(job := Idle)
    else r.(job := Found(r.job.m, r.job.readAt, r.row))
  }

  function JobChecksOld(r: Room): Room
    requires r.job.Found?
  {
    var e := r.job.existing;
    if e.Some? && Changed(r.lines, e.value.fromSeq, e.value.upToSeq, e.value.sourceReadAt)
    then r.(job := OldStale(r.job.m, r.job.readAt))
    else r.(job := OldChecked(r.job.m, r.job.readAt, e))
  }

  function JobDeletesOld(r: Room): Room
    requires r.job.OldStale?
  {
    r.(row := None, job := OldChecked(r.job.m, r.job.readAt, None))
  }

  function NewFrom(m: Mention, existing: Option<Summary>): int {
    Max(m.fromSeq, (if existing.Some? then existing.value.upToSeq else 0) + 1)
  }

  function JobReads(r: Room): Room
    requires r.job.OldChecked?
  {
    var from := NewFrom(r.job.m, r.job.existing);
    var quotes := Transcript(r.lines, from, r.job.m.toSeq, r.job.m.sentAt);
    if quotes == map[] then r.(job := Idle)
    else r.(job := Transcribed(r.job.m, r.job.readAt, r.job.existing, from, quotes))
  }

  /** The provider's answer, trimmed and clipped; nothing at all when it failed. */
  function JobHears(r: Room, text: string): Room
    requires r.job.Transcribed?
  {
    var j := r.job;
    if text == "" then r.(job := Idle) else r.(job := Answered(j.m, j.readAt, j.existing, j.from, j.quotes, text))
  }

  function CoveredFrom(existing: Option<Summary>, from: int): int {
    if existing.Some? then existing.value.fromSeq else from
  }

  function JobRechecks(r: Room, eligible: bool): Room
    requires r.job.Answered?
  {
    var j := r.job;
    if !eligible || Changed(r.lines, CoveredFrom(j.existing, j.from), j.m.toSeq, j.readAt)
    then r.(job := Idle)
    else r.(job := Rechecked(j.m, j.readAt, j.existing, j.from, j.quotes, j.text))
  }

  function JobConfirms(r: Room): Room
    requires r.job.Rechecked?
  {
    var j := r.job;
    if j.existing.Some? && r.row.None?
    then r.(job := Idle)
    else r.(job := Confirmed(j.m, j.readAt, j.existing, j.from, j.quotes, j.text))
  }

  /** The new summary merges the old one's quotes with the new lines'. */
  function Rolled(existing: Option<Summary>, quotes: map<nat, nat>): map<nat, nat> {
    if existing.Some? then existing.value.quotes + quotes else quotes
  }

  function JobStores(r: Room): Room
    requires r.job.Confirmed?
  {
    var j := r.job;
    r.(row := Some(Summary(j.text, CoveredFrom(j.existing, j.from), j.m.toSeq, j.readAt, Rolled(j.existing, j.quotes))),
       job := Idle)
  }

  // ---- whoever uses the summary ----

  function ReaderFinds(r: Room): Room { r.(reader := r.row) }

  predicate Trusted(r: Room) {
    r.reader.Some? && !Changed(r.lines, r.reader.value.fromSeq, r.reader.value.upToSeq, r.reader.value.sourceReadAt)
  }

  function ReaderChecks(r: Room): Room {
    if r.reader.Some? && !Trusted(r) then r.(row := None, reader := None) else r
  }

  /** The room's tables, and the job's local variables between two of its accesses to them. */
  class RoomDatabase {
    var clock: nat
    var lines: Lines
    var row: Option<Summary>
    var hooks: multiset<nat>
    var mentions: seq<Mention>
    var job: Phase
    var reader: Option<Summary>

    function Model(): Room
      reads this
    {
      Room(clock, lines, row, hooks, mentions, job, reader)
    }

    constructor ()
      ensures Model() == Room(0, map[], None, multiset{}, [], Idle, None)
    {
      clock, lines, row, hooks, mentions, job, reader := 0, map[], None, multiset{}, [], Idle, None;
    }

    method WriteEdit(seqNo: nat, stamp: int, quotable: bool)
      requires seqNo in lines
      modifies this
      ensures Model() == Edit(old(Model()), seqNo, stamp, quotable)
    {
      var l := lines[seqNo];
      lines := lines[seqNo := l.(version := l.version + 1, edited := Some(stamp), quotable := quotable)];
      hooks := hooks + multiset{seqNo};
    }

    method WriteDelete(seqNo: nat, stamp: int)
      requires seqNo in lines
      modifies this
      ensures Model() == Delete(old(Model()), seqNo, stamp)
    {
      var l := lines[seqNo];
      lines := lines[seqNo := l.(version := l.version + 1, deleted := Some(stamp))];
      hooks := hooks + multiset{seqNo};
    }

    method ForgetRows(seqNo: nat)
      modifies this
      ensures Model() == ForgetCovering(old(Model()), seqNo)
    {
      if row.Some? && row.value.fromSeq <= seqNo && row.value.upToSeq >= seqNo {
        row := None;
      }
    }

    method RunUpdatedHook(seqNo: nat)
      requires seqNo in hooks
      modifies this
      ensures Model() == Hook(old(Model()), seqNo)
    {
      hooks := hooks - multiset{seqNo};
      ForgetRows(seqNo);
    }

    method Begin(k: nat, eligible: bool)
      requires job.Idle? && k < |mentions|
      modifies this
      ensures Model() == JobBegins(old(Model()), k, eligible)
    {
      if !eligible {
        return;
      }
      job := ClockRead(mentions[k], Second(clock));
    }

    method FindExisting()
      requires job.ClockRead?
      modifies this
      ensures Model() == JobFinds(old(Model()))
    {
      var existing := row;
      if existing.Some? && existing.value.upToSeq >= job.m.toSeq {
        job := Idle;
      } else {
        job := Found(job.m, job.readAt, existing);
      }
    }

    method CheckExisting()
      requires job.Found?
      modifies this
      ensures Model() == JobChecksOld(old(Model()))
    {
      var e := job.existing;
      if e.Some? && Changed(lines, e.value.fromSeq, e.value.upToSeq, e.value.sourceReadAt) {
        job := OldStale(job.m, job.readAt);
      } else {
        job := OldChecked(job.m, job.readAt, e);
      }
    }

    method DeleteExisting()
      requires job.OldStale?
      modifies this
      ensures Model() == JobDeletesOld(old(Model()))
    {
      row := None;
      job := OldChecked(job.m, job.readAt, None);
    }

    method ReadTranscript()
      requires job.OldChecked?
      modifies this
      ensures Model() == JobReads(old(Model()))
    {
      var last := if job.existing.Some? then job.existing.value.upToSeq else 0;
      var from := Max(job.m.fromSeq, last + 1);
      var quotes := Transcript(lines, from, job.m.toSeq, job.m.sentAt);
      if quotes == map[] {
        job := Idle;
      } else {
        job := Transcribed(job.m, job.readAt, job.existing, from, quotes);
      }
    }

    /** `answer` is what the provider wrote, or nothing when it threw. */
    method HearAnswer(answer: string, maxTokens: int, estimate: string -> nat)
      requires job.Transcribed?
      modifies this
      ensures exists text: string ::
                && Model() == JobHears(old(Model()), text)
                && text <= Trim(answer) && (text != "" ==> estimate(text) <= maxTokens)
    {
      var text := Clip(answer, maxTokens, estimate);
      if text == "" {
        job := Idle;
      } else {
        job := Answered(job.m, job.readAt, job.existing, job.from, job.quotes, text);
      }
    }

    method Recheck(eligible: bool)
      requires job.Answered?
      modifies this
      ensures Model() == JobRechecks(old(Model()), eligible)
    {
      var coveredFrom := if job.existing.Some? then job.existing.value.fromSeq else job.from;
      if !eligible || Changed(lines, coveredFrom, job.m.toSeq, job.readAt) {
        job := Idle;
      } else {
        job := Rechecked(job.m, job.readAt, job.existing, job.from, job.quotes, job.text);
      }
    }

    method ConfirmRow()
      requires job.Rechecked?
      modifies this
      ensures Model() == JobConfirms(old(Model()))
    {
      if job.existing.Some? && row.None? {
        job := Idle;
      } else {
        job := Confirmed(job.m, job.readAt, job.existing, job.from, job.quotes, job.text);
      }
    }

    method Store()
      requires job.Confirmed?
      modifies this
      ensures Model() == JobStores(old(Model()))
    {
      var coveredFrom := if job.existing.Some? then job.existing.value.fromSeq else job.from;
      var quotes := if job.existing.Some? then job.existing.value.quotes + job.quotes else job.quotes;
      row := Some(Summary(job.text, coveredFrom, job.m.toSeq, job.readAt, quotes));
      job := Idle;
    }

    /** The reply builder's own check before it uses the summary it found. */
    method UseSummary() returns (usable: Option<Summary>)
      modifies this
      ensures Model() == ReaderChecks(old(Model()))
      ensures usable == if Trusted(old(Model())) then old(reader) else None
    {
      if reader.None? {
        return None;
      }
      if Changed(lines, reader.value.fromSeq, reader.value.upToSeq, reader.value.sourceReadAt) {
        row, reader := None, None;
        return None;
      }
      usable := reader;
    }
  }
}
