/** Why a stale summary is always caught: every interleaving of the job with writers, hooks and readers. */
module SummaryRuns {
  import opened Common
  import opened RoomSummaries

  datatype Event =
    | ClockAdvanced(ms: nat)
    | LineSent(seqNo: nat, quotable: bool)
    | LineEdited(seqNo: nat, stamp: int, quotable: bool)
    | LineDeleted(seqNo: nat, stamp: int)
    | HookRan(seqNo: nat)
    | BotMentioned(from: int, to: int)
    | RowDropped
    | Began(k: nat, eligible: bool)
    | FoundRow
    | CheckedOld
    | DeletedOld
    | ReadLines
    | Heard(text: string)
    | RecheckedLines(eligible: bool)
    | ConfirmedRow
    | StoredRow
    | ReaderFound
    | ReaderChecked

  function JobStep(r: Room, e: Event): Room {
    match e
    case Began(k, eligible) => if r.job.Idle? && k < |r.mentions| then JobBegins(r, k, eligible) else r
    case FoundRow => if r.job.ClockRead? then JobFinds(r) else r
    case CheckedOld => if r.job.Found? then JobChecksOld(r) else r
    case DeletedOld => if r.job.OldStale? then JobDeletesOld(r) else r
    case ReadLines => if r.job.OldChecked? then JobReads(r) else r
    case Heard(text) => if r.job.Transcribed? then JobHears(r, text) else r
    case RecheckedLines(eligible) => if r.job.Answered? then JobRechecks(r, eligible) else r
    case ConfirmedRow => if r.job.Rechecked? then JobConfirms(r) else r
    case StoredRow => if r.job.Confirmed? then JobStores(r) else r
    case _ => r
  }

  /** One step; an event that cannot happen now leaves the room as it is. */
  function Step(r: Room, e: Event): Room {
    match e
    case ClockAdvanced(ms) => r.(clock := r.clock + ms)
    case LineSent(seqNo, quotable) => if forall s | s in r.lines :: s < seqNo then Sent(r, seqNo, quotable) else r
    case LineEdited(seqNo, stamp, quotable) => if seqNo in r.lines then Edit(r, seqNo, stamp, quotable) else r
    case LineDeleted(seqNo, stamp) => if seqNo in r.lines then Delete(r, seqNo, stamp) else r
    case HookRan(seqNo) => if seqNo in r.hooks then Hook(r, seqNo) else r
    case BotMentioned(from, to) => if exists s | s in r.lines :: s >= to then Mentioned(r, from, to) else r
    case RowDropped => r.(row := None)
    case ReaderFound => ReaderFinds(r)
    case ReaderChecked => ReaderChecks(r)
    case _ => JobStep(r, e)
  }

  function Start(): Room { Room(0, map[], None, multiset{}, [], Idle, None) }

  function Run(es: seq<Event>): Room {
    if es == [] then Start() else Step(Run(es[..|es| - 1]), es[|es| - 1])
  }

  /** A write carries the second in which it happens. */
  predicate Stamped(r: Room, e: Event) {
    match e
    case LineEdited(_, stamp, _) => stamp == Second(r.clock)
    case LineDeleted(_, stamp) => stamp == Second(r.clock)
    case _ => true
  }

  ghost predicate AllStamped(es: seq<Event>) {
    forall i | 0 <= i < |es| :: Stamped(Run(es[..i]), es[i])
  }

  // ---- what a quote is worth ----

  /** A quoted line either still says what it said or bears a stamp no older than `since`. */
  ghost predicate Detectable(lines: Lines, quotes: map<nat, nat>, since: int) {
    forall s | s in quotes ::
      s in lines && quotes[s] <= lines[s].version && (lines[s].version == quotes[s] || StampedSince(lines[s], since))
  }

  ghost predicate Within(quotes: map<nat, nat>, from: int, to: int) {
    forall s | s in quotes :: from <= s <= to
  }

  predicate Current(lines: Lines, quotes: map<nat, nat>) {
    forall s | s in quotes :: s in lines && lines[s].version == quotes[s]
  }

  ghost predicate SoundRow(lines: Lines, clock: nat, row: Summary) {
    && Detectable(lines, row.quotes, row.sourceReadAt) && row.sourceReadAt <= Second(clock)
    && Within(row.quotes, row.fromSeq, row.upToSeq) && row.fromSeq <= row.upToSeq
  }

  /** A mention remembers every line of its range, and those stamped earlier are still as the bot was sent them. */
  ghost predicate SoundMention(lines: Lines, clock: nat, m: Mention) {
    && Second(m.sentAt) <= Second(clock) && Detectable(lines, m.seen, Second(m.sentAt))
    && (forall s | s in lines && m.fromSeq <= s <= m.toSeq :: s in m.seen)
    && exists s :: s in lines && m.toSeq <= s
  }

  /** The new quotes are of lines the bot was sent, as it was sent them. */
  ghost predicate Consented(m: Mention, quotes: map<nat, nat>) {
    forall s | s in quotes :: s in m.seen && m.seen[s] == quotes[s]
  }

  /** The job's copy of the row, on the way to being folded forward under `since`; a row still there is that copy. */
  ghost predicate SoundCopy(r: Room, m: Mention, since: int, existing: Option<Summary>) {
    && (r.row.Some? ==> existing == r.row)
    && (existing.Some? ==>
          && Detectable(r.lines, existing.value.quotes, since) && existing.value.upToSeq < m.toSeq
          && Within(existing.value.quotes, existing.value.fromSeq, existing.value.upToSeq)
          && existing.value.fromSeq <= existing.value.upToSeq)
  }

  ghost predicate SoundQuotes(r: Room, j: Phase)
    requires j.Quoting()
  {
    && SoundCopy(r, j.m, j.readAt, j.existing) && (j.existing.Some? ==> j.existing.value.upToSeq < j.from)
    && Detectable(r.lines, j.quotes, j.readAt) && Within(j.quotes, j.from, j.m.toSeq) && Consented(j.m, j.quotes)
    && j.from <= j.m.toSeq
  }

  ghost predicate SoundFind(r: Room, m: Mention, existing: Option<Summary>) {
    && SoundCopy(r, m, if existing.Some? then existing.value.sourceReadAt else 0, existing)
    && (existing.Some? ==> existing.value.sourceReadAt <= Second(r.clock))
  }

  ghost predicate SoundJob(r: Room) {
    var j := r.job;
    && (!j.Idle? ==> j.readAt <= Second(r.clock) && SoundMention(r.lines, r.clock, j.m))
    && (j.Found? ==> SoundFind(r, j.m, j.existing))
    && (j.OldChecked? ==> SoundCopy(r, j.m, j.readAt, j.existing))
    && (j.Quoting() ==> SoundQuotes(r, j))
  }

  ghost predicate Sound(r: Room) {
    && (r.row.Some? ==> SoundRow(r.lines, r.clock, r.row.value))
    && (r.reader.Some? ==> SoundRow(r.lines, r.clock, r.reader.value))
    && (forall m | m in r.mentions :: SoundMention(r.lines, r.clock, m))
    && SoundJob(r)
  }

  // ---- writers ----

  /** Lines only gain stamps, and a line that changes bears this second's. */
  ghost predicate Stamps(lines: Lines, lines': Lines, second: int) {
    forall s | s in lines ::
      && s in lines' && lines[s].version <= lines'[s].version
      && (lines'[s].version == lines[s].version || StampedSince(lines'[s], second))
      && (forall t | t <= second && StampedSince(lines[s], t) :: StampedSince(lines'[s], t))
  }

  lemma StampsKeepDetectable(lines: Lines, lines': Lines, second: int, quotes: map<nat, nat>, since: int)
    requires Stamps(lines, lines', second) && Detectable(lines, quotes, since) && since <= second
    ensures Detectable(lines', quotes, since)
  {
    forall s | s in quotes ensures s in lines' && quotes[s] <= lines'[s].version
                                   && (lines'[s].version == quotes[s] || StampedSince(lines'[s], since)) {
      assert StampedSince(lines'[s], second) ==> StampedSince(lines'[s], since);
    }
  }

  /** What leaves the row and the job alone, only moves the clock on and only stamps lines, keeps everything sound. */
  ghost predicate Outside(r: Room, r': Room) {
    && r'.row == r.row && r'.job == r.job && r'.reader == r.reader && r'.mentions == r.mentions
    && Second(r.clock) <= Second(r'.clock) && Stamps(r.lines, r'.lines, Second(r.clock))
    && (forall s | s in r'.lines && s !in r.lines :: forall t | t in r.lines :: t < s)
  }

  lemma OutsideRow(r: Room, r': Room, row: Summary)
    requires Outside(r, r') && SoundRow(r.lines, r.clock, row)
    ensures SoundRow(r'.lines, r'.clock, row)
  {
    StampsKeepDetectable(r.lines, r'.lines, Second(r.clock), row.quotes, row.sourceReadAt);
  }

  lemma OutsideMention(r: Room, r': Room, m: Mention)
    requires Outside(r, r') && SoundMention(r.lines, r.clock, m)
    ensures SoundMention(r'.lines, r'.clock, m)
  {
    StampsKeepDetectable(r.lines, r'.lines, Second(r.clock), m.seen, Second(m.sentAt));
    var t :| t in r.lines && m.toSeq <= t;
    assert t in r'.lines;
  }

  lemma OutsideCopy(r: Room, r': Room, m: Mention, since: int, existing: Option<Summary>)
    requires Outside(r, r') && SoundCopy(r, m, since, existing) && (existing.Some? ==> since <= Second(r.clock))
    ensures SoundCopy(r', m, since, existing)
  {
    if existing.Some? {
      StampsKeepDetectable(r.lines, r'.lines, Second(r.clock), existing.value.quotes, since);
    }
  }

  lemma OutsideJob(r: Room, r': Room)
    requires Outside(r, r') && SoundJob(r)
    ensures SoundJob(r')
  {
    var j := r.job;
    if !j.Idle? {
      OutsideMention(r, r', j.m);
      if j.Found? {
        OutsideCopy(r, r', j.m, if j.existing.Some? then j.existing.value.sourceReadAt else 0, j.existing);
      } else if j.OldChecked? {
        OutsideCopy(r, r', j.m, j.readAt, j.existing);
      } else if j.Quoting() {
        OutsideCopy(r, r', j.m, j.readAt, j.existing);
        StampsKeepDetectable(r.lines, r'.lines, Second(r.clock), j.quotes, j.readAt);
      }
    }
  }

  lemma OutsideSound(r: Room, r': Room)
    requires Outside(r, r') && Sound(r)
    ensures Sound(r')
  {
    if r.row.Some? { OutsideRow(r, r', r.row.value); }
    if r.reader.Some? { OutsideRow(r, r', r.reader.value); }
    forall m | m in r.mentions ensures SoundMention(r'.lines, r'.clock, m) { OutsideMention(r, r', m); }
    OutsideJob(r, r');
  }

  lemma WriteSound(r: Room, e: Event)
    requires Sound(r) && Stamped(r, e) && (e.ClockAdvanced? || e.LineSent? || e.LineEdited? || e.LineDeleted?)
    ensures Sound(Step(r, e))
  {
    WriteIsOutside(r, e);
    OutsideSound(r, Step(r, e));
  }

  lemma WriteIsOutside(r: Room, e: Event)
    requires Stamped(r, e) && (e.ClockAdvanced? || e.LineSent? || e.LineEdited? || e.LineDeleted?)
    ensures Outside(r, Step(r, e))
  {
    match e {
      case ClockAdvanced(_) =>
      case LineSent(_, _) =>
      case LineEdited(_, _, _) =>
      case LineDeleted(_, _) =>
    }
  }

  /** Losing the row never hurts. */
  lemma DropSound(r: Room, r': Room)
    requires Sound(r) && (r' == r.(row := None, hooks := r'.hooks, reader := r'.reader) || r' == r.(hooks := r'.hooks, reader := r'.reader))
    requires r'.reader == None || r'.reader == r.reader || r'.reader == r.row
    ensures Sound(r')
  {
    forall m | m in r.mentions ensures SoundMention(r'.lines, r'.clock, m) { assert SoundMention(r.lines, r.clock, m); }
    if r'.row.Some? { assert SoundRow(r.lines, r.clock, r'.row.value); }
    if r'.reader.Some? { assert SoundRow(r.lines, r.clock, r'.reader.value); }
    assert SoundJob(r') by { assert SoundJob(r); }
  }

  lemma MentionSound(r: Room, from: int, to: int)
    requires Sound(r) && exists s | s in r.lines :: s >= to
    ensures Sound(Mentioned(r, from, to))
  {
    var r' := Mentioned(r, from, to);
    forall m | m in r'.mentions ensures SoundMention(r'.lines, r'.clock, m) { assert m in r.mentions ==> SoundMention(r.lines, r.clock, m); }
    if r.row.Some? { assert SoundRow(r'.lines, r'.clock, r.row.value); }
    if r.reader.Some? { assert SoundRow(r'.lines, r'.clock, r.reader.value); }
    assert SoundJob(r') by { assert SoundJob(r); }
  }

  // ---- the job ----

  /** Unchanged since `since` means: every quoted line still says what it said. */
  lemma UnchangedIsCurrent(lines: Lines, from: int, to: int, quotes: map<nat, nat>, since: int)
    requires Detectable(lines, quotes, since) && Within(quotes, from, to) && !Changed(lines, from, to, since)
    ensures Current(lines, quotes)
  {
  }

  /** Quotes that are current now can be carried forward under any read time: rolling the old part forward is safe. */
  lemma CurrentIsDetectable(lines: Lines, quotes: map<nat, nat>, since: int)
    requires Current(lines, quotes)
    ensures Detectable(lines, quotes, since)
  {
  }

  lemma CheckSound(r: Room)
    requires Sound(r) && r.job.Found?
    ensures SoundJob(JobChecksOld(r))
  {
    var e := r.job.existing;
    if e.Some? && !Changed(r.lines, e.value.fromSeq, e.value.upToSeq, e.value.sourceReadAt) {
      UnchangedIsCurrent(r.lines, e.value.fromSeq, e.value.upToSeq, e.value.quotes, e.value.sourceReadAt);
      CurrentIsDetectable(r.lines, e.value.quotes, r.job.readAt);
    }
  }

  lemma ReadSound(r: Room)
    requires Sound(r) && r.job.OldChecked?
    ensures SoundJob(JobReads(r))
  {
    var j := r.job;
    var from := NewFrom(j.m, j.existing);
    var quotes := Transcript(r.lines, from, j.m.toSeq, j.m.sentAt);
    forall s | s in quotes ensures s in j.m.seen && j.m.seen[s] == quotes[s] && from <= j.m.toSeq {
      assert !StampedSince(r.lines[s], Second(j.m.sentAt));
    }
    if quotes != map[] {
      assert exists s :: s in quotes;
    }
  }

  lemma StoreSound(r: Room)
    requires Sound(r) && r.job.Confirmed?
    ensures Sound(JobStores(r))
  {
    var j := r.job;
    var r' := JobStores(r);
    forall m | m in r.mentions ensures SoundMention(r'.lines, r'.clock, m) { assert SoundMention(r.lines, r.clock, m); }
    assert SoundRow(r'.lines, r'.clock, r'.row.value);
  }

  /** The job moving on touches nothing but itself. */
  lemma JobMoves(r: Room, r': Room)
    requires Sound(r) && r' == r.(job := r'.job) && SoundJob(r')
    ensures Sound(r')
  {
    forall m | m in r.mentions ensures SoundMention(r'.lines, r'.clock, m) { assert SoundMention(r.lines, r.clock, m); }
    if r.row.Some? { assert SoundRow(r.lines, r.clock, r.row.value); }
    if r.reader.Some? { assert SoundRow(r.lines, r.clock, r.reader.value); }
  }

  lemma DeleteSound(r: Room)
    requires Sound(r) && r.job.OldStale?
    ensures Sound(JobDeletesOld(r))
  {
    var r1 := r.(row := None);
    DropSound(r, r1);
    JobMoves(r1, JobDeletesOld(r));
  }

  lemma BeginSound(r: Room, k: nat, eligible: bool)
    requires Sound(r) && r.job.Idle? && k < |r.mentions|
    ensures Sound(JobBegins(r, k, eligible))
  {
    assert r.mentions[k] in r.mentions;
    JobMoves(r, JobBegins(r, k, eligible));
  }

  lemma FindSound(r: Room)
    requires Sound(r) && r.job.ClockRead?
    ensures Sound(JobFinds(r))
  {
    JobMoves(r, JobFinds(r));
  }

  lemma EarlyJobSound(r: Room, e: Event)
    requires Sound(r) && (e.Began? || e.FoundRow? || e.CheckedOld? || e.ReadLines?)
    ensures Sound(JobStep(r, e))
  {
    match e {
      case Began(k, eligible) => if r.job.Idle? && k < |r.mentions| { BeginSound(r, k, eligible); }
      case FoundRow => if r.job.ClockRead? { FindSound(r); }
      case CheckedOld =>
        if r.job.Found? {
          CheckSound(r);
          JobMoves(r, JobChecksOld(r));
        }
      case ReadLines =>
        if r.job.OldChecked? {
          ReadSound(r);
          JobMoves(r, JobReads(r));
        }
    }
  }

  lemma LateJobSound(r: Room, e: Event)
    requires Sound(r) && (e.DeletedOld? || e.Heard? || e.RecheckedLines? || e.ConfirmedRow? || e.StoredRow?)
    ensures Sound(JobStep(r, e))
  {
    match e {
      case DeletedOld => if r.job.OldStale? { DeleteSound(r); }
      case Heard(text) => if r.job.Transcribed? { HearSound(r, text); }
      case RecheckedLines(eligible) => if r.job.Answered? { RecheckSound(r, eligible); }
      case ConfirmedRow => if r.job.Rechecked? { ConfirmSound(r); }
      case StoredRow => if r.job.Confirmed? { StoreSound(r); }
    }
  }

  lemma HearSound(r: Room, text: string)
    requires Sound(r) && r.job.Transcribed?
    ensures Sound(JobHears(r, text))
  {
    JobMoves(r, JobHears(r, text));
  }

  lemma RecheckSound(r: Room, eligible: bool)
    requires Sound(r) && r.job.Answered?
    ensures Sound(JobRechecks(r, eligible))
  {
    JobMoves(r, JobRechecks(r, eligible));
  }

  lemma ConfirmSound(r: Room)
    requires Sound(r) && r.job.Rechecked?
    ensures Sound(JobConfirms(r))
  {
    JobMoves(r, JobConfirms(r));
  }

  lemma StepSound(r: Room, e: Event)
    requires Sound(r) && Stamped(r, e)
    ensures Sound(Step(r, e))
  {
    if e.ClockAdvanced? || e.LineSent? || e.LineEdited? || e.LineDeleted? {
      WriteSound(r, e);
    } else if e.HookRan? || e.RowDropped? || e.ReaderFound? || e.ReaderChecked? {
      RowStepSound(r, e);
    } else if e.BotMentioned? {
      if exists s | s in r.lines :: s >= e.to { MentionSound(r, e.from, e.to); }
    } else {
      JobStepIsStep(r, e);
      if e.Began? || e.FoundRow? || e.CheckedOld? || e.ReadLines? { EarlyJobSound(r, e); } else { LateJobSound(r, e); }
    }
  }

  predicate OfTheJob(e: Event) {
    e.Began? || e.FoundRow? || e.CheckedOld? || e.DeletedOld? || e.ReadLines? || e.Heard? || e.RecheckedLines? || e.ConfirmedRow? || e.StoredRow?
  }

  lemma JobStepIsStep(r: Room, e: Event)
    requires OfTheJob(e)
    ensures Step(r, e) == JobStep(r, e)
  {
  }

  lemma RowStepSound(r: Room, e: Event)
    requires Sound(r) && (e.HookRan? || e.RowDropped? || e.ReaderFound? || e.ReaderChecked?)
    ensures Sound(Step(r, e))
  {
    match e {
      case HookRan(_) => DropSound(r, Step(r, e));
      case RowDropped => DropSound(r, Step(r, e));
      case ReaderFound => DropSound(r, Step(r, e));
      case ReaderChecked => DropSound(r, Step(r, e));
    }
  }

  lemma {:induction false} RunSound(es: seq<Event>)
    requires AllStamped(es)
    ensures Sound(Run(es))
  {
    if es != [] {
      var n := |es| - 1;
      forall i | 0 <= i < n ensures Stamped(Run(es[..n][..i]), es[..n][i]) { assert es[..n][..i] == es[..i]; }
      RunSound(es[..n]);
      StepSound(Run(es[..n]), es[n]);
    }
  }

  // ---- what it all means ----

  /** A stored summary that quotes a line which has changed is always caught by the check its readers make. */
  lemma StaleIsDetected(es: seq<Event>)
    requires AllStamped(es) && Run(es).row.Some? && !Current(Run(es).lines, Run(es).row.value.quotes)
    ensures var row := Run(es).row.value; Changed(Run(es).lines, row.fromSeq, row.upToSeq, row.sourceReadAt)
  {
    RunSound(es);
    var row := Run(es).row.value;
    if !Changed(Run(es).lines, row.fromSeq, row.upToSeq, row.sourceReadAt) {
      UnchangedIsCurrent(Run(es).lines, row.fromSeq, row.upToSeq, row.quotes, row.sourceReadAt);
    }
  }

  /** So a summary that passes the check, even one read long before it, quotes nothing that has changed. */
  lemma TrustedIsCurrent(es: seq<Event>)
    requires AllStamped(es) && Trusted(Run(es))
    ensures Current(Run(es).lines, Run(es).reader.value.quotes)
  {
    RunSound(es);
    var s := Run(es).reader.value;
    UnchangedIsCurrent(Run(es).lines, s.fromSeq, s.upToSeq, s.quotes, s.sourceReadAt);
  }

  /**
    * The job folds an old summary forward, and keeps a new one, only if at its last check every line either of
    * them quotes still says what it said; and what it newly quotes is what the bot was sent.
    */
  lemma NothingStaleIsFolded(es: seq<Event>, eligible: bool)
    requires AllStamped(es) && Run(es).job.Answered? && JobRechecks(Run(es), eligible).job.Rechecked?
    ensures var j := Run(es).job;
            Current(Run(es).lines, Rolled(j.existing, j.quotes)) && Consented(j.m, j.quotes)
  {
    RunSound(es);
    var r := Run(es);
    var j := r.job;
    UnchangedIsCurrent(r.lines, j.from, j.m.toSeq, j.quotes, j.readAt);
    if j.existing.Some? {
      var e := j.existing.value;
      UnchangedIsCurrent(r.lines, e.fromSeq, e.upToSeq, e.quotes, j.readAt);
    }
  }

  lemma OnlyStoreWrites(r: Room, e: Event)
    requires !(e.StoredRow? && r.job.Confirmed?)
    ensures Step(r, e).row == r.row || Step(r, e).row == None
  {
  }

  predicate FurtherThan(row: Summary, row': Summary) {
    row'.upToSeq > row.upToSeq && row'.fromSeq == row.fromSeq && row.quotes.Keys <= row'.quotes.Keys
  }

  /** While a row survives it only ever reaches further: any step that replaces it raises `up_to_seq`. */
  lemma RowsReachFurther(es: seq<Event>, e: Event)
    requires AllStamped(es) && Run(es).row.Some? && Step(Run(es), e).row.Some?
    ensures var row, row' := Run(es).row.value, Step(Run(es), e).row.value;
            row' == row || FurtherThan(row, row')
  {
    RunSound(es);
    StepReachesFurther(Run(es), e);
  }

  lemma StepReachesFurther(r: Room, e: Event)
    requires Sound(r) && r.row.Some? && Step(r, e).row.Some?
    ensures var row, row' := r.row.value, Step(r, e).row.value; row' == row || FurtherThan(row, row')
  {
    if e.StoredRow? && r.job.Confirmed? {
      JobStepIsStep(r, e);
      StoreReachesFurther(r);
    } else {
      OnlyStoreWrites(r, e);
    }
  }

  lemma StoreReachesFurther(r: Room)
    requires r.job.Confirmed? && r.row.Some? && r.job.existing == r.row && r.row.value.upToSeq < r.job.m.toSeq
    ensures var row' := JobStores(r).row;
            row'.Some? && FurtherThan(r.row.value, row'.value)
  {
  }

  /** The other half: once its hook has run, no row covers the changed line. */
  lemma HookForgets(r: Room, seqNo: nat)
    requires seqNo in r.hooks
    ensures var row := Hook(r, seqNo).row;
            && (row.Some? ==> row == r.row && !(row.value.fromSeq <= seqNo <= row.value.upToSeq))
            && (row.None? ==> r.row.None? || r.row.value.fromSeq <= seqNo <= r.row.value.upToSeq)
  {
  }

  /**
    * The clock is what it rests on: an edit of a quoted line leaves the row's staleness detectable exactly if its
    * stamp, or an earlier delete's, is no older than the second the row was read in.
    */
  lemma StampDecides(r: Room, seqNo: nat, stamp: int, quotable: bool)
    requires r.row.Some? && SoundRow(r.lines, r.clock, r.row.value) && seqNo in r.row.value.quotes
    ensures var since := r.row.value.sourceReadAt;
            Detectable(Edit(r, seqNo, stamp, quotable).lines, r.row.value.quotes, since) <==>
            stamp >= since || (r.lines[seqNo].deleted.Some? && r.lines[seqNo].deleted.value >= since)
  {
    var since, quotes := r.row.value.sourceReadAt, r.row.value.quotes;
    var lines' := Edit(r, seqNo, stamp, quotable).lines;
    assert lines'[seqNo].version > quotes[seqNo];
    if StampedSince(lines'[seqNo], since) {
      forall s | s in quotes ensures s in lines' && quotes[s] <= lines'[s].version
                                     && (lines'[s].version == quotes[s] || StampedSince(lines'[s], since)) {
        assert s != seqNo ==> lines'[s] == r.lines[s];
      }
    }
  }
}
