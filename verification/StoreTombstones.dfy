/** What the server promises of deleted messages, and what the reaction version is then worth. */
module StoreTombstones {
  import opened Common
  import opened Messages
  import opened MessageTable
  import opened MessageStores
  import opened StoreRuns
  import opened StoreRows

  /** A tombstone as the server serialises it: without a reaction summary. */
  predicate Bare(m: Message) { m.Deleted() ==> SummaryOf(m) == NO_SUMMARY }

  predicate AllBare(rows: seq<Message>) { forall m | m in rows :: Bare(m) }

  lemma WriteKeepsBare(rows: Rows, m: Message)
    requires UniqueIds(rows) && AllBare(rows) && Bare(m)
    ensures AllBare(SetRow(rows, m))
  {
    SetRowFacts(rows, m);
  }

  lemma MergedIsBare(previous: Message, m: Message, keep: bool)
    requires Bare(previous) && Bare(m)
    ensures Bare(MergeExisting(previous, m, keep))
  {
  }

  lemma InsertKeepsBare(s: Store, m: Message, t: Option<int>)
    requires UniqueIds(s.rows) && AllBare(s.rows) && Bare(m)
    ensures AllBare(Insert(s, m, t).rows)
  {
    var found := Lookup(s.rows, m.id);
    if found.Some? {
      var row := MergeExisting(found.value, m, KeepsSummary(s, m.id, t));
      MergedIsBare(found.value, m, KeepsSummary(s, m.id, t));
      WriteKeepsBare(s.rows, row);
    } else {
      WriteKeepsBare(s.rows, m);
    }
  }

  lemma {:induction false} InsertAllKeepsBare(s: Store, ms: seq<Message>, t: Option<int>)
    requires UniqueIds(s.rows) && AllBare(s.rows) && AllBare(ms)
    ensures AllBare(InsertAll(s, ms, t).rows)
  {
    if ms != [] {
      var n := |ms| - 1;
      InsertAllKeepsIds(s, ms[..n], t);
      InsertAllKeepsBare(s, ms[..n], t);
      InsertKeepsBare(InsertAll(s, ms[..n], t), ms[n], t);
    }
  }

  lemma {:induction false} ReplaceKeepsBare(s: Store, page: seq<Message>, t: Option<int>)
    requires UniqueIds(s.rows) && AllBare(s.rows) && AllBare(page)
    ensures AllBare(ReplaceRows(s, page, t).rows)
  {
    if page != [] {
      var n := |page| - 1;
      var s1 := ReplaceRows(s, page[..n], t);
      ReplaceRowsKeepsIds(s, page[..n], t);
      ReplaceKeepsBare(s, page[..n], t);
      ReplaceOneKeepsBare(s1, s.rows, page[n], t);
    }
  }

  lemma ReplaceOneKeepsBare(s: Store, previous: Rows, m: Message, t: Option<int>)
    requires UniqueIds(s.rows) && AllBare(s.rows) && AllBare(previous) && Bare(m)
    ensures AllBare(ReplaceOne(s, previous, m, t).rows)
  {
    var before := Lookup(previous, m.id);
    if before.Some? {
      var row := MergeExisting(before.value, m, KeepsSummary(s, m.id, t));
      MergedIsBare(before.value, m, KeepsSummary(s, m.id, t));
      WriteKeepsBare(s.rows, row);
    } else {
      WriteKeepsBare(s.rows, m);
    }
  }

  lemma AddKeepsBare(s: Store, ms: seq<Message>, t: Option<int>)
    requires UniqueIds(s.rows) && AllBare(s.rows) && AllBare(ms)
    ensures AllBare(Add(s, ms, t).rows)
  {
    InsertAllKeepsBare(s, ms, t);
  }

  lemma ConfirmKeepsBare(s: Store, c: string, m: Message, t: Option<int>)
    requires UniqueIds(s.rows) && AllBare(s.rows) && Bare(m)
    ensures AllBare(ConfirmClientMessage(s, c, m, t).rows)
  {
    DeleteFirstKeepsIds(s.rows, c);
    AddKeepsBare(s.(rows := DeleteFirstWithClientId(s.rows, c)), [m], t);
  }

  lemma CopyStepKeepsBare(s: Store, e: Event)
    requires UniqueIds(s.rows) && AllBare(s.rows) && AllBare(e.Copies()) && (IsMerge(e) || e.Confirmed?)
    ensures AllBare(Step(s, e).rows)
  {
    match e {
      case Replaced(page, t) => ReplaceKeepsBare(s, page, t);
      case PageMerged(page, t) => InsertAllKeepsBare(s, page, t);
      case Added(batch, t) => AddKeepsBare(s, batch, t);
      case Filled(page, t) => AddKeepsBare(s.(timerArmed := false), page, t);
      case Confirmed(c, m, t) => ConfirmKeepsBare(s, c, m, t);
    }
  }

  lemma MarkDeletedKeepsBare(s: Store, id: string, at: Timestamp, reason: string)
    requires UniqueIds(s.rows) && AllBare(s.rows)
    ensures AllBare(MarkDeleted(s, id, at, reason).rows)
  {
    var found := Lookup(s.rows, id);
    if found.Some? {
      WriteKeepsBare(s.rows, Tombstone(found.value, at, reason));
    }
  }

  lemma SetReactionsKeepsBare(s: Store, id: string, counts: seq<ReactionCount>, mine: Option<Option<string>>, now: int)
    requires UniqueIds(s.rows) && AllBare(s.rows)
    ensures AllBare(SetReactions(s, id, counts, mine, now).rows)
  {
    var found := Lookup(s.rows, id);
    if found.Some? && !found.value.Deleted() {
      var m := found.value;
      WriteKeepsBare(s.rows, m.(reactions := Some(counts), myReaction := mine.Or(m.myReaction)));
    }
  }

  lemma RestampKeepsBare(rows: Rows, stubs: map<string, UserStub>)
    requires AllBare(rows)
    ensures AllBare(RestampAll(rows, stubs))
  {
    var rows' := RestampAll(rows, stubs);
    forall m | m in rows' ensures Bare(m) {
      var i :| 0 <= i < |rows'| && rows'[i] == m;
      RestampIsQuiet(rows[i], stubs);
      assert rows[i] in rows;
    }
  }

  lemma LocalStepKeepsBare(s: Store, e: Event)
    requires UniqueIds(s.rows) && AllBare(s.rows) && !(IsMerge(e) || e.Confirmed?)
    ensures AllBare(Step(s, e).rows)
  {
    if e.Deleted? {
      MarkDeletedKeepsBare(s, e.id, e.at, e.reason);
    } else if e.ReactionsSet? {
      SetReactionsKeepsBare(s, e.id, e.counts, e.mine, e.now);
    } else if e.SendersRefreshed? {
      RestampKeepsBare(s.rows, FreshStubs(e.senders));
    } else {
      QuietKeepsRows(s, e);
    }
  }

  lemma {:induction false} RunKeepsBare(s: Store, es: seq<Event>)
    requires Consistent(s) && AllBare(s.rows) && forall e | e in es :: AllBare(e.Copies())
    ensures Consistent(Run(s, es)) && AllBare(Run(s, es).rows)
  {
    if es != [] {
      var n := |es| - 1;
      var s1 := Run(s, es[..n]);
      assert es[n] in es;
      RunKeepsBare(s, es[..n]);
      StepIsConsistent(s1, es[n]);
      if IsMerge(es[n]) || es[n].Confirmed? {
        CopyStepKeepsBare(s1, es[n]);
      } else {
        LocalStepKeepsBare(s1, es[n]);
      }
    }
  }

  /**
    * With a server that strips tombstones, equal versions mean equal summaries, for every row and between any two
    * points of any run.
    */
  lemma EqualVersionsEqualSummaries(roomId: string, before: seq<Event>, after: seq<Event>, id: string)
    requires forall e | e in before + after :: AllBare(e.Copies())
    ensures Told(Run(Empty(roomId), before), after, id)
  {
    var s := Run(Empty(roomId), before);
    assert forall e | e in before :: e in before + after;
    assert forall e | e in after :: e in before + after;
    RunsAreConsistent(roomId, []);
    RunKeepsBare(Empty(roomId), before);
    BareRowsTell(s, id);
  }

  lemma BareRowsTell(s: Store, id: string)
    requires Consistent(s) && AllBare(s.rows)
    ensures forall es :: Told(s, es, id)
  {
    if HasId(s.rows, id) {
      VersionTellsIff(s, id);
    }
  }
}
