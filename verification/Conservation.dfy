/** Conservation: every accepted downstream message is live or has ended, once, and its end is reported. */
module Conservation {
  import opened Core
  import opened MessageManager
  import opened Delivery
  import opened Durability

  /** No message from FCM names "fcm" as its category. */
  predicate ProperCategory(l: Label) {
    l.Handle? && (l.e.FcmUpstream? || l.e.FcmReceipt?) ==> l.e.category != FCM
  }

  // ---------------------------------------------------------------- rows addressed to FCM

  /** Rows for FCM are the downstream messages, and their senders are BAL sessions. */
  ghost predicate RowsSorted(s: State) {
    forall q :: q in s.rows ==>
      && (s.rows[q].target == FCM <==> s.rows[q].kind == Downstream)
      && (s.rows[q].target == FCM ==> s.rows[q].source != FCM)
      && s.rows[q].state != Unknown
  }

  predicate Sorted(k: Key, m: Msg) {
    && (k == Fcm <==> m.kind == Downstream)
    && (k == Fcm ==> m.source != FCM)
    && (k.Bal? ==> k.session != FCM)
  }

  predicate PcSorted(pc: Pc) {
    match pc
    case SaveNew(k, m, about) => Sorted(k, m) && (about.Some? ==> m.kind == DownstreamAck)
    case AckUpstream(k, m) => Sorted(k, m)
    case AddNew(k, m) => Sorted(k, m)
    case FinishRow(k, m, st, how) =>
      && (k == Fcm ==> m.source != FCM) && (how == ByBalAck ==> k != Fcm)
      && (st == Delivered <==> how.ByAck? || how.ByBalAck?)
    case Drop(k, m, how) => (k == Fcm ==> m.source != FCM) && (how == ByBalAck ==> k != Fcm)
    case SendNext(k, m, how) => (k == Fcm ==> m.source != FCM) && (how == ByBalAck <==> k != Fcm)
    case Notice(m, how) => m.source != FCM && how != ByBalAck
    case SaveReject(n, d) => n.kind == DownstreamReject && n.target != FCM && n.state == PendingAck
    case _ => true
  }

  /** An unfinished row for FCM is queued, or its handler is about to queue it. */
  ghost predicate Queued(s: State) {
    forall q :: q in PendingFor(s.rows, FCM) ==>
      q in s.fcm.messages || (s.pc.AddNew? && s.pc.k == Fcm && s.pc.m.id == q)
  }

  // ---------------------------------------------------------------- reports to the BAL

  /** The ack or reject row `n` fits the end of message `d`. */
  ghost predicate Reports(s: State, n: SeqId, d: SeqId) {
    && n in s.rows && d in s.rows
    && s.rows[d].kind == Downstream && Finished(s.rows[d].state)
    && s.rows[n].kind == (if s.rows[d].state == Delivered then DownstreamAck else DownstreamReject)
  }

  ghost predicate HasReport(notices: map<SeqId, SeqId>, d: SeqId) {
    exists n :: n in notices && notices[n] == d
  }

  ghost predicate Told(s: State) {
    && (forall n :: n in s.notices ==> Reports(s, n, s.notices[n]))
    && (forall a, b :: a in s.notices && b in s.notices && s.notices[a] == s.notices[b] ==> a == b)
  }

  predicate EndedByAck(pc: Pc) {
    match pc
    case SaveNew(_, _, _) => true
    case Drop(_, _, how) => how.ByAck?
    case SendNext(_, _, how) => how.ByAck?
    case Notice(_, how) => how.ByAck?
    case _ => false
  }

  /** The message whose end is being reported has no report yet. */
  ghost predicate OwedOnce(s: State) {
    forall d :: d in Owing(s.pc) ==>
      && d in s.rows && s.rows[d].kind == Downstream && Finished(s.rows[d].state)
      && (s.rows[d].state == Delivered <==> EndedByAck(s.pc))
      && !HasReport(s.notices, d)
  }

  /** Every ended downstream message is reported, being reported, or was interrupted. */
  ghost predicate Settled(s: State) {
    forall d :: d in s.rows && s.rows[d].kind == Downstream && Finished(s.rows[d].state) ==>
      HasReport(s.notices, d) || d in s.interrupted || d in Owing(s.pc)
  }

  ghost predicate Conserved(s: State) {
    RowsSorted(s) && PcSorted(s.pc) && Queued(s) && Told(s) && OwedOnce(s) && Settled(s)
  }

  // ---------------------------------------------------------------- preservation, piece by piece

  lemma FcmLiveIsDownstream(s: State, q: SeqId)
    requires Inv(s) && RowsSorted(s) && q in s.fcm.messages
    ensures s.fcm.messages[q].kind == Downstream && s.fcm.messages[q].source != FCM
    ensures q in s.rows && s.rows[q].kind == Downstream
  {
    assert Live(s, Fcm, q);
    LiveIsRow(s, Fcm, q);
  }

  /** A step that leaves the table alone and keeps what is owed. */
  lemma TableKept(s: State, t: State)
    requires Conserved(s) && t.rows == s.rows && t.notices == s.notices
    requires PcSorted(t.pc) && Queued(t)
    requires s.interrupted <= t.interrupted && Owing(s.pc) <= Owing(t.pc) + t.interrupted
    requires Owing(t.pc) <= Owing(s.pc) && (Owing(t.pc) != {} ==> EndedByAck(t.pc) == EndedByAck(s.pc))
    ensures Conserved(t)
  {
    forall n | n in t.notices ensures Reports(t, n, t.notices[n]) {
      assert Reports(s, n, s.notices[n]);
    }
  }

  lemma SameTable(s: State, t: State)
    requires Conserved(s) && t.rows == s.rows && t.notices == s.notices
    requires PcSorted(t.pc)
    requires s.fcm.messages.Keys <= t.fcm.messages.Keys
    requires s.pc.AddNew? && s.pc.k == Fcm ==> s.pc.m.id in t.fcm.messages || t.pc == s.pc
    requires s.interrupted <= t.interrupted && Owing(s.pc) <= Owing(t.pc) + t.interrupted
    requires Owing(t.pc) <= Owing(s.pc) && (Owing(t.pc) != {} ==> EndedByAck(t.pc) == EndedByAck(s.pc))
    ensures Conserved(t)
  {
    forall q | q in PendingFor(t.rows, FCM)
      ensures q in t.fcm.messages || (t.pc.AddNew? && t.pc.k == Fcm && t.pc.m.id == q)
    {
      assert q in PendingFor(s.rows, FCM);
    }
    TableKept(s, t);
  }

  /** A new row, perhaps the report on a message. */
  lemma RowSaved(s: State, t: State, m: Msg, about: Option<SeqId>)
    requires Inv(s) && Conserved(s) && Fresh(s, m.id)
    requires t.rows == s.rows[m.id := RowOf(m)] && t.fcm == s.fcm
    requires t.notices == if about.Some? then s.notices[m.id := about.value] else s.notices
    requires Owing(s.pc) == if about.Some? then {about.value} else {}
    requires about.Some? ==> m.kind == (if EndedByAck(s.pc) then DownstreamAck else DownstreamReject)
    requires m.state != Unknown && (m.target == FCM <==> m.kind == Downstream) && (m.target == FCM ==> m.source != FCM)
    requires m.kind == Downstream ==> t.pc.AddNew? && t.pc.k == Fcm && t.pc.m.id == m.id && Unfinished(m.state)
    requires PcSorted(t.pc) && Owing(t.pc) == {} && t.interrupted == s.interrupted && !s.pc.AddNew?
    ensures Conserved(t)
  {
    forall q | q in PendingFor(t.rows, FCM)
      ensures q in t.fcm.messages || (t.pc.AddNew? && t.pc.k == Fcm && t.pc.m.id == q)
    {
      assert q == m.id || q in PendingFor(s.rows, FCM);
    }
    ReportSaved(s, t, m, about);
    ReportsGrow(s.notices, t.notices, m.id, about);
  }

  lemma ReportsGrow(a: map<SeqId, SeqId>, b: map<SeqId, SeqId>, n: SeqId, about: Option<SeqId>)
    requires n !in a && b == if about.Some? then a[n := about.value] else a
    ensures forall d :: HasReport(a, d) ==> HasReport(b, d)
    ensures about.Some? ==> HasReport(b, about.value)
  {
    forall d | HasReport(a, d) ensures HasReport(b, d) {
      var k :| k in a && a[k] == d;
      assert k in b && b[k] == d;
    }
    if about.Some? {
      assert n in b && b[n] == about.value;
    }
  }

  lemma ReportSaved(s: State, t: State, m: Msg, about: Option<SeqId>)
    requires Told(s) && OwedOnce(s) && m.id !in s.rows
    requires t.rows == s.rows[m.id := RowOf(m)]
    requires t.notices == if about.Some? then s.notices[m.id := about.value] else s.notices
    requires Owing(s.pc) == if about.Some? then {about.value} else {}
    requires about.Some? ==> m.kind == (if EndedByAck(s.pc) then DownstreamAck else DownstreamReject)
    ensures Told(t) && m.id !in s.notices
  {
    forall n | n in s.notices ensures n != m.id && Reports(t, n, s.notices[n]) && HasReport(s.notices, s.notices[n]) {
      assert Reports(s, n, s.notices[n]);
    }
    if about.Some? {
      assert about.value in Owing(s.pc);
      assert Reports(t, m.id, about.value);
    }
  }

  /** The row of a live message moves to PENDING_ACK. */
  lemma RowMarked(s: State, t: State, k: Key, q: SeqId)
    requires Inv(s) && Conserved(s) && Live(s, k, q) && !s.pc.Drop? && !s.pc.AddNew?
    requires t.rows == SetRow(s, q, PendingAck).rows && t.fcm == s.fcm && t.notices == s.notices
    requires PcSorted(t.pc) && Owing(t.pc) == {} == Owing(s.pc) && t.interrupted == s.interrupted
    ensures Conserved(t)
  {
    LiveIsRow(s, k, q);
    forall p | p in PendingFor(t.rows, FCM) ensures p in t.fcm.messages {
      assert p in PendingFor(s.rows, FCM);
    }
    forall n | n in t.notices ensures Reports(t, n, t.notices[n]) {
      assert Reports(s, n, s.notices[n]);
    }
  }

  /** The row of a live message is finished; nothing has reported on it before. */
  lemma RowFinished(s: State, t: State)
    requires Inv(s) && Conserved(s) && s.pc.FinishRow?
    requires t == SetRow(s, s.pc.m.id, s.pc.st).(pc := Drop(s.pc.k, s.pc.m, s.pc.how))
    ensures Conserved(t)
  {
    var k, d := s.pc.k, s.pc.m.id;
    LiveIsRow(s, k, d);
    forall p | p in PendingFor(t.rows, FCM) ensures p in t.fcm.messages {
      assert p in PendingFor(s.rows, FCM);
    }
    forall n | n in t.notices ensures Reports(t, n, t.notices[n]) && t.notices[n] != d {
      assert Reports(s, n, s.notices[n]);
    }
  }

  // ---------------------------------------------------------------- preservation, statement by statement

  lemma StoreConserved(s: State)
    requires Inv(s) && Conserved(s) && !s.pc.Idle? && !EndsMessage(s.pc) && !s.pc.SaveNew? && !s.pc.AddNew?
    ensures Conserved(Exec(s))
  {
    if s.pc.MarkRow? || s.pc.ResendRow? {
      RowMarked(s, Exec(s), s.pc.k, s.pc.q);
    } else {
      assert PcSorted(Exec(s).pc);
      SameTable(s, Exec(s));
    }
  }

  lemma SaveConserved(s: State)
    requires Inv(s) && Conserved(s) && s.pc.SaveNew?
    ensures Conserved(Exec(s))
  {
    RowSaved(s, Exec(s), s.pc.m, s.pc.about);
  }

  lemma AddConserved(s: State)
    requires Inv(s) && Conserved(s) && s.pc.AddNew?
    ensures Conserved(Exec(s))
  {
    var t := Exec(s);
    if Has(s, s.pc.k) {
      assert MgrInv(s, s.pc.k);
      assert !Live(s, s.pc.k, s.pc.m.id);
      AddKeepsValid(MgrAt(s, s.pc.k), s.pc.m);
    }
    SameTable(s, t);
  }

  lemma DropKeepsQueued(s: State, t: State)
    requires Conserved(s) && s.pc.Drop? && t.rows == s.rows
    requires t.fcm.messages == if s.pc.k == Fcm then s.fcm.messages - {s.pc.m.id} else s.fcm.messages
    ensures Queued(t)
  {
    hide Exec, Begin;
    assert s.pc.k == Fcm ==> s.pc.m.id in Owing(s.pc);
    forall q | q in PendingFor(t.rows, FCM) ensures q in t.fcm.messages {
      assert q in PendingFor(s.rows, FCM);
      assert q in s.fcm.messages && q !in Owing(s.pc);
    }
  }

  lemma DropPc(s: State)
    requires Inv(s) && s.pc.Drop? && PcSorted(s.pc)
    ensures var pc := AfterDrop(s.pc.k, s.pc.m, s.pc.how);
      PcSorted(pc) && Owing(pc) == Owing(s.pc) && (Owing(pc) != {} ==> EndedByAck(pc) == EndedByAck(s.pc))
  {
  }

  lemma DropConserved(s: State)
    requires Inv(s) && Conserved(s) && s.pc.Drop?
    ensures Conserved(Exec(s))
  {
    var t := Exec(s);
    DropRemoves(s);
    hide Exec, Inv, Remove;
    DropPc(s);
    DropKeepsQueued(s, t);
    hide Queued, RowsSorted, Told, OwedOnce, Settled, AfterDrop, PcSorted, EndedByAck, Owing;
    TableKept(s, t);
  }

  lemma EndConserved(s: State)
    requires Inv(s) && Conserved(s) && EndsMessage(s.pc) && !s.pc.Drop?
    ensures Conserved(Exec(s))
  {
    if s.pc.FinishRow? {
      hide Conserved, Inv;
      RowFinished(s, Exec(s));
    } else if s.pc.SaveReject? {
      RowSaved(s, Exec(s), s.pc.n, Some(s.pc.d));
    } else {
      NoticeConserved(s);
    }
  }

  lemma NoticeConserved(s: State)
    requires Inv(s) && Conserved(s) && (s.pc.SendNext? || s.pc.Notice?)
    ensures Conserved(Exec(s))
  {
    var t := EndAndNotify(s);
    assert t == Exec(s);
    hide Exec, Inv, RowsSorted, Told, OwedOnce, Settled, Next, NoticeMsg;
    assert PcSorted(t.pc);
    SameTable(s, t);
  }

  lemma RetryConserved(s: State, k: Key, q: SeqId)
    requires Inv(s) && Conserved(s) && s.pc == Idle && Live(s, k, q)
    ensures Conserved(Retry(s, k, MgrAt(s, k).messages[q]))
  {
    LiveIsRow(s, k, q);
    if k == Fcm {
      FcmLiveIsDownstream(s, q);
    }
    SameTable(s, Retry(s, k, MgrAt(s, k).messages[q]));
  }

  lemma TurnConserved(s: State)
    requires Inv(s) && Conserved(s) && s.pc == Idle && s.loop.Sweeping?
    ensures Conserved(Exec(s))
  {
    var k := s.loop.k;
    var t := SweepTurn(s);
    assert t == Exec(s);
    hide Exec, Proper;
    if s.loop.rest == {} {
      SameTable(s, t);
    } else {
      TurnCases(s);
      hide SweepTurn;
      var q := Least(s.loop.rest);
      var u := s.(loop := Sweeping(k, s.loop.rest - {q}));
      SameMemory(s, u);
      hide Inv;
      SameTable(s, u);
      if t == Retry(u, k, MgrAt(s, k).messages[q]) {
        RetryConserved(u, k, q);
      } else {
        SameTable(s, t);
      }
    }
  }

  lemma ExecConserved(s: State)
    requires Inv(s) && Conserved(s) && !Boundary(s)
    ensures Conserved(Exec(s))
  {
    hide Exec, Conserved;
    if s.pc.Idle? {
      TurnConserved(s);
    } else if s.pc.SaveNew? {
      SaveConserved(s);
    } else if s.pc.AddNew? {
      AddConserved(s);
    } else if s.pc.Drop? {
      DropConserved(s);
    } else if EndsMessage(s.pc) {
      EndConserved(s);
    } else {
      StoreConserved(s);
    }
  }

  lemma BeginConserved(s: State, e: Event)
    requires Inv(s) && Conserved(s) && Boundary(s) && Allowed(s, e) && ProperCategory(Handle(e))
    ensures Conserved(Begin(s, e))
  {
    hide Exec;
    assert MgrInv(s, Fcm);
    if (e.FcmAck? || e.FcmNack?) && FindByFcmId(s.fcm, e.fcmId).Some? {
      FoundIsLive(s.fcm, e.fcmId);
      FcmLiveIsDownstream(s, s.fcm.index[e.fcmId]);
      if e.FcmNack? && e.retryable {
        RetryConserved(s, Fcm, s.fcm.index[e.fcmId]);
      } else {
        SameTable(s, Begin(s, e));
      }
    } else {
      SameTable(s, Begin(s, e));
    }
  }

  lemma StartConserved(s: State, s': State)
    requires Conserved(s) && Restarted(s, s')
    ensures Conserved(s')
  {
    forall q | q in PendingFor(s'.rows, FCM) ensures q in s'.fcm.messages {
      assert LoadedFrom(s'.rows, FCM, s'.fcm);
    }
    forall n | n in s'.notices ensures Reports(s', n, s'.notices[n]) {
      assert Reports(s, n, s.notices[n]);
    }
  }

  lemma StepConserved(s: State, l: Label, s': State)
    requires Inv(s) && Conserved(s) && Step(s, l, s') && ProperCategory(l)
    ensures Conserved(s')
  {
    hide Exec, Begin, Inv;
    match l
    case Handle(e) => BeginConserved(s, e);
    case Run => ExecConserved(s);
    case DbFailure => SameTable(s, s');
    case Crash => StartConserved(s, s');
  }

  ghost predicate ProperRun(ss: seq<State>, ls: seq<Label>) {
    && IsRun(ss, ls)
    && (forall n :: 0 <= n < |ss| ==> Proper(ss[n]))
    && (forall n {:trigger ls[n]} :: 0 <= n < |ls| ==> ProperCategory(ls[n]))
  }

  lemma {:induction false} RunConserved(ss: seq<State>, ls: seq<Label>, i: nat)
    requires ProperRun(ss, ls) && i < |ss|
    ensures Conserved(ss[i])
  {
    hide Exec, Begin, Inv, Proper, Step;
    if i > 0 {
      RunConserved(ss, ls, i - 1);
      RunKeeps(ss, ls, i - 1);
      StepConserved(ss[i - 1], ls[i - 1], ss[i]);
    }
  }

  // ---------------------------------------------------------------- results

  function Accepted(rows: map<SeqId, Row>): set<SeqId> {
    set q | q in rows && rows[q].kind == Downstream
  }

  function AcceptedIn(rows: map<SeqId, Row>, st: MsgState): set<SeqId> {
    set q | q in rows && rows[q].kind == Downstream && rows[q].state == st
  }

  /** Between handlers the FCM queue and the unfinished rows for FCM are the same messages. */
  lemma QueueIsPendingRows(ss: seq<State>, ls: seq<Label>, i: nat)
    requires ProperRun(ss, ls) && i < |ss| && Boundary(ss[i])
    ensures ss[i].fcm.messages.Keys == PendingFor(ss[i].rows, FCM)
  {
    hide Exec, Begin, Proper, Step;
    var s := ss[i];
    RunConserved(ss, ls, i);
    RunKeeps(ss, ls, i);
    forall q | q in s.fcm.messages ensures q in PendingFor(s.rows, FCM) {
      assert Live(s, Fcm, q);
      LiveIsRow(s, Fcm, q);
    }
    forall q | q in PendingFor(s.rows, FCM) ensures q in s.fcm.messages { }
  }

  /** accepted = live + delivered + failed, at every handler boundary of every run, whatever acks and
      nacks are lost, repeated or reordered. */
  lemma AcceptedAreConserved(ss: seq<State>, ls: seq<Label>, i: nat)
    requires ProperRun(ss, ls) && i < |ss| && Boundary(ss[i])
    ensures var s := ss[i];
      |Accepted(s.rows)| ==
      |s.fcm.messages.Keys| + |AcceptedIn(s.rows, Delivered)| + |AcceptedIn(s.rows, DeliveryFailed)|
  {
    hide Exec, Begin, Proper, Step, Inv;
    var s := ss[i];
    RunConserved(ss, ls, i);
    QueueIsPendingRows(ss, ls, i);
    Partition(s);
  }

  lemma Partition(s: State)
    requires RowsSorted(s)
    ensures |Accepted(s.rows)| ==
      |PendingFor(s.rows, FCM)| + |AcceptedIn(s.rows, Delivered)| + |AcceptedIn(s.rows, DeliveryFailed)|
  {
    var live, ok, bad := PendingFor(s.rows, FCM), AcceptedIn(s.rows, Delivered), AcceptedIn(s.rows, DeliveryFailed);
    forall q | q in s.rows
      ensures q in Accepted(s.rows) <==> q in live || q in ok || q in bad
      ensures !(q in live && q in ok) && !(q in live && q in bad) && !(q in ok && q in bad)
    {
    }
    assert Accepted(s.rows) == live + ok + bad;
  }
}
