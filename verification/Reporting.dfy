/** Reports to the BAL, stated over the table and the run: which message each ack or reject row is about, and which
    ended messages have none. */
module Reporting {
  import opened Core
  import opened MessageManager
  import opened Delivery
  import opened Durability
  import opened Conservation

  predicate IsReport(k: MsgKind) { k == DownstreamAck || k == DownstreamReject }

  /** Row n is for the session that sent d, under d's FCM id. */
  predicate Concerns(rows: map<SeqId, Row>, n: SeqId, d: SeqId) {
    n in rows && d in rows && rows[n].fcmId == rows[d].fcmId && rows[n].target == rows[d].source
  }

  predicate MsgOf(rows: map<SeqId, Row>, m: Msg) {
    m.id in rows && rows[m.id].fcmId == m.fcmId && rows[m.id].source == m.source
  }

  predicate NoticeOf(rows: map<SeqId, Row>, n: Msg, d: SeqId) {
    d in rows && n.fcmId == rows[d].fcmId && n.target == rows[d].source
  }

  /** The handler carries the message, or the notice, that the table has. */
  predicate PcMatches(s: State) {
    match s.pc
    case SaveNew(_, m, about) => (if about.Some? then NoticeOf(s.rows, m, about.value) && IsReport(m.kind)
      else !IsReport(m.kind))
    case Drop(k, m, _) => k.Fcm? ==> MsgOf(s.rows, m)
    case SendNext(k, m, _) => k.Fcm? ==> MsgOf(s.rows, m)
    case Notice(m, how) => MsgOf(s.rows, m)
    case SaveReject(n, d) => NoticeOf(s.rows, n, d)
    case _ => true
  }

  ghost predicate ReportsListed(s: State) {
    forall n :: n in s.rows && IsReport(s.rows[n].kind) ==> n in s.notices
  }

  ghost predicate ReportsMatch(s: State) {
    forall n :: n in s.notices ==> Concerns(s.rows, n, s.notices[n])
  }

  /** What was interrupted has ended, has no report and will get none. */
  ghost predicate CutShort(s: State) {
    forall d :: d in s.interrupted ==>
      d in s.rows && Finished(s.rows[d].state) && !HasReport(s.notices, d) && d !in Owing(s.pc)
  }

  ghost predicate Accounted(s: State) { ReportsListed(s) && ReportsMatch(s) && CutShort(s) && PcMatches(s) }

  // ---------------------------------------------------------------- no statement interrupts

  lemma StoreUninterrupted(s: State)
    requires Inv(s) && !s.pc.Idle? && !EndsMessage(s.pc)
    ensures StoreAndSend(s).interrupted == s.interrupted
  {
    hide CanSend, Add, Put, CountUp;
  }

  lemma EndUninterrupted(s: State)
    requires Inv(s) && EndsMessage(s.pc)
    ensures EndAndNotify(s).interrupted == s.interrupted
  {
    if s.pc.Drop? {
      DropRemoves(s);
    } else {
      hide Next, NoticeMsg, Remove, RemoveByFcmId;
    }
  }

  lemma TurnUninterrupted(s: State)
    requires s.pc.Idle? && s.loop.Sweeping? && Has(s, s.loop.k)
    ensures SweepTurn(s).interrupted == s.interrupted
  {
    hide CanSendOnReconnect, Remove, Put;
  }

  /** A statement that runs is never an interruption. */
  lemma ExecUninterrupted(s: State)
    requires Inv(s) && !Boundary(s)
    ensures Exec(s).interrupted == s.interrupted
  {
    assert s.loop.Sweeping? ==> Has(s, s.loop.k);
    hide StoreAndSend, EndAndNotify, SweepTurn;
    if EndsMessage(s.pc) { EndUninterrupted(s); }
    else if !s.pc.Idle? { StoreUninterrupted(s); }
    else { TurnUninterrupted(s); }
  }

  // ---------------------------------------------------------------- preservation

  /** Rows and notices stay. */
  lemma SameAccount(s: State, t: State)
    requires Accounted(s) && t.rows == s.rows && t.notices == s.notices && PcMatches(t)
    requires forall d :: d in t.interrupted ==>
      && d !in Owing(t.pc)
      && (d in s.interrupted || (d in s.rows && Finished(s.rows[d].state) && !HasReport(s.notices, d)))
    ensures Accounted(t)
  {
  }

  lemma EndMatching(s: State)
    requires Accounted(s) && PcSorted(s.pc) && EndsMessage(s.pc) && !s.pc.Drop? && !WritesDb(s.pc)
    ensures PcMatches(EndAndNotify(s)) && Owing(EndAndNotify(s).pc) <= Owing(s.pc)
  {
    hide Next;
  }

  lemma DropMatching(s: State)
    requires Inv(s) && Accounted(s) && s.pc.Drop?
    ensures PcMatches(Exec(s)) && Owing(Exec(s).pc) <= Owing(s.pc)
  {
    DropRemoves(s);
    hide Exec, Remove, Inv;
  }

  lemma TurnMatching(s: State)
    requires s.pc.Idle? && s.loop.Sweeping? && Has(s, s.loop.k)
    ensures PcMatches(SweepTurn(s)) && Owing(SweepTurn(s).pc) == {}
  {
    hide CanSendOnReconnect, Remove, Put;
  }

  lemma StoreMatching(s: State)
    requires !s.pc.Idle? && !EndsMessage(s.pc) && !WritesDb(s.pc)
    ensures PcMatches(StoreAndSend(s)) && Owing(StoreAndSend(s).pc) == {}
  {
    hide CanSend, Add, Put, CountUp;
  }

  lemma Matching(s: State)
    requires Inv(s) && Accounted(s) && PcSorted(s.pc) && !Boundary(s) && !WritesDb(s.pc)
    ensures PcMatches(Exec(s)) && Owing(Exec(s).pc) <= Owing(s.pc)
  {
    assert s.loop.Sweeping? ==> Has(s, s.loop.k);
    hide StoreAndSend, EndAndNotify, SweepTurn, PcMatches, PcSorted, Owing, Accounted, Inv;
    if s.pc.Drop? { DropMatching(s); }
    else if EndsMessage(s.pc) { EndMatching(s); }
    else if s.pc.Idle? { TurnMatching(s); }
    else { StoreMatching(s); }
  }

  lemma QuietAccount(s: State)
    requires Inv(s) && Accounted(s) && PcSorted(s.pc) && !Boundary(s) && !WritesDb(s.pc)
    ensures Accounted(Exec(s))
  {
    ExecUninterrupted(s);
    Matching(s);
    hide Inv, PcMatches;
    SameAccount(s, Exec(s));
  }

  /** The state of a row that was not finished changes. */
  lemma StateWritten(s: State, t: State, q: SeqId, st: MsgState)
    requires Accounted(s) && t.rows == SetRow(s, q, st).rows && t.notices == s.notices
    requires t.interrupted == s.interrupted && PcMatches(t)
    requires q in s.rows && !Finished(s.rows[q].state) && Owing(t.pc) <= {q}
    ensures Accounted(t)
  {
    forall n | n in t.notices ensures Concerns(t.rows, n, t.notices[n]) {
      assert Concerns(s.rows, n, s.notices[n]);
    }
  }

  lemma WriteAccount(s: State)
    requires Inv(s) && Accounted(s) && (s.pc.MarkRow? || s.pc.ResendRow? || s.pc.FinishRow?)
    ensures Accounted(Exec(s))
  {
    var k, q := s.pc.k, if s.pc.FinishRow? then s.pc.m.id else s.pc.q;
    assert Live(s, k, q);
    LiveIsRow(s, k, q);
    var t := Exec(s);
    if s.pc.FinishRow? {
      assert MgrAt(s, k).messages[q] == s.pc.m;
      hide Inv;
      StateWritten(s, t, q, s.pc.st);
    } else {
      hide Inv;
      StateWritten(s, t, q, PendingAck);
    }
  }

  /** A new row, perhaps a report on a message that was owed one. */
  lemma RowAccount(s: State, t: State, m: Msg, about: Option<SeqId>)
    requires Accounted(s) && Told(s) && m.id !in s.rows && t.rows == s.rows[m.id := RowOf(m)]
    requires t.notices == if about.Some? then s.notices[m.id := about.value] else s.notices
    requires t.interrupted == s.interrupted && Owing(t.pc) == {} && PcMatches(t)
    requires if about.Some? then NoticeOf(s.rows, m, about.value) && about.value !in s.interrupted
      else !IsReport(m.kind)
    ensures Accounted(t)
  {
    forall n | n in t.notices ensures Concerns(t.rows, n, t.notices[n]) {
      if n in s.notices && n != m.id { assert Concerns(s.rows, n, s.notices[n]); }
    }
    forall d | d in t.interrupted ensures d in t.rows && Finished(t.rows[d].state) && !HasReport(t.notices, d) {
      assert d != m.id;
      forall n | n in t.notices ensures t.notices[n] != d {
        if n in s.notices { assert Reports(s, n, s.notices[n]); assert n != m.id; assert !(s.notices[n] == d); }
      }
    }
  }

  lemma SaveAccount(s: State)
    requires Inv(s) && Conserved(s) && Accounted(s) && (s.pc.SaveNew? || s.pc.SaveReject?)
    ensures Accounted(Exec(s))
  {
    ExecUninterrupted(s);
    var t := Exec(s);
    assert s.pc.SaveNew? ==> s.pc.m.id !in s.rows;
    assert s.pc.SaveReject? ==> s.pc.n.id !in s.rows;
    if s.pc.SaveNew? {
      assert s.pc.about.Some? ==> s.pc.about.value in Owing(s.pc);
      hide Inv, ReportsListed, ReportsMatch;
      RowAccount(s, t, s.pc.m, s.pc.about);
    } else {
      assert s.pc.d in Owing(s.pc);
      hide Inv, ReportsListed, ReportsMatch;
      RowAccount(s, t, s.pc.n, Some(s.pc.d));
    }
  }

  lemma StepAccount(s: State, l: Label, s': State)
    requires Inv(s) && Conserved(s) && Accounted(s) && Step(s, l, s')
    ensures Accounted(s')
  {
    hide Exec, Inv;
    match l
    case Handle(e) => BeginAccount(s, e);
    case Run =>
      assert PcSorted(s.pc);
      hide Conserved, Accounted, PcSorted;
      if s.pc.SaveNew? || s.pc.SaveReject? { SaveAccount(s); }
      else if WritesDb(s.pc) { WriteAccount(s); }
      else { QuietAccount(s); }
    case DbFailure => InterruptedAccount(s, s');
    case Crash => InterruptedAccount(s, s');
  }

  lemma BeginAccount(s: State, e: Event)
    requires Accounted(s) && Boundary(s) && Allowed(s, e)
    ensures Accounted(Begin(s, e))
  {
    hide FindByFcmId;
    SameAccount(s, Begin(s, e));
  }

  lemma InterruptedAccount(s: State, t: State)
    requires Conserved(s) && Accounted(s) && t.rows == s.rows && t.notices == s.notices && t.pc == Idle
    requires t.interrupted == s.interrupted + Owing(s.pc)
    ensures Accounted(t)
  {
    hide RowsSorted, Told, Queued, Settled;
    SameAccount(s, t);
  }

  lemma {:induction false} RunAccount(ss: seq<State>, ls: seq<Label>, i: nat)
    requires ProperRun(ss, ls) && i < |ss|
    ensures Accounted(ss[i])
  {
    if i > 0 {
      hide Exec, Begin, Inv, Proper, Step, Accounted, Conserved;
      RunAccount(ss, ls, i - 1);
      RunConserved(ss, ls, i - 1);
      RunKeeps(ss, ls, i - 1);
      StepAccount(ss[i - 1], ls[i - 1], ss[i]);
    }
  }

  // ---------------------------------------------------------------- interruptions are crashes and database errors

  /** A crash or a database error at step j, while the end of d was still to be reported. */
  ghost predicate CutAt(ss: seq<State>, ls: seq<Label>, j: nat, d: SeqId)
    requires |ss| == |ls| + 1
  {
    j < |ls| && (ls[j] == Crash || ls[j] == DbFailure) && d in Owing(ss[j].pc)
  }

  lemma StepInterrupts(s: State, l: Label, s': State)
    requires Inv(s) && Step(s, l, s')
    ensures s'.interrupted == if l == Crash || l == DbFailure then s.interrupted + Owing(s.pc) else s.interrupted
  {
    hide Exec;
    if l == Run { ExecUninterrupted(s); }
  }

  lemma {:induction false} InterruptedExactly(ss: seq<State>, ls: seq<Label>, i: nat, d: SeqId)
    requires ProperRun(ss, ls) && i < |ss|
    ensures d in ss[i].interrupted <==> exists j :: 0 <= j < i && CutAt(ss, ls, j, d)
  {
    hide Exec, Begin, Inv, Proper, Step, Owing;
    if i > 0 {
      InterruptedExactly(ss, ls, i - 1, d);
      RunKeeps(ss, ls, i - 1);
      assert Step(ss[i - 1], ls[i - 1], ss[i]);
      StepInterrupts(ss[i - 1], ls[i - 1], ss[i]);
      assert CutAt(ss, ls, i - 1, d) <==> (ls[i - 1] == Crash || ls[i - 1] == DbFailure) && d in Owing(ss[i - 1].pc);
    }
  }

  // ---------------------------------------------------------------- results

  /** Row n is the report on d. */
  ghost predicate ReportOn(s: State, n: SeqId, d: SeqId) {
    n in s.rows && IsReport(s.rows[n].kind) && n in s.notices && s.notices[n] == d
  }

  /** Every ack or reject row is the report on exactly one ended downstream message, of the kind of its end, for the
      session that sent it and under its FCM id; and no two rows report on the same message. */
  lemma EveryReportHasItsMessage(ss: seq<State>, ls: seq<Label>, i: nat, n: SeqId)
    requires ProperRun(ss, ls) && i < |ss| && n in ss[i].rows && IsReport(ss[i].rows[n].kind)
    ensures var s := ss[i];
      && n in s.notices && s.notices[n] in Accepted(s.rows) && Finished(s.rows[s.notices[n]].state)
      && s.rows[n].kind == (if s.rows[s.notices[n]].state == Delivered then DownstreamAck else DownstreamReject)
      && Concerns(s.rows, n, s.notices[n])
      && forall k :: ReportOn(s, k, s.notices[n]) ==> k == n
  {
    hide Exec, Begin, Proper, Step, Inv;
    RunConserved(ss, ls, i);
    RunAccount(ss, ls, i);
    assert Reports(ss[i], n, ss[i].notices[n]);
  }

  /** Between handlers an ended message has its report, one and only one, if and only if no crash and no database
      error fell while that report was still to be saved. */
  lemma EndIsReportedExactly(ss: seq<State>, ls: seq<Label>, i: nat, d: SeqId)
    requires ProperRun(ss, ls) && i < |ss| && Boundary(ss[i])
    requires d in Accepted(ss[i].rows) && Finished(ss[i].rows[d].state)
    ensures (exists n :: ReportOn(ss[i], n, d)) <==> !(exists j :: 0 <= j < i && CutAt(ss, ls, j, d))
    ensures forall a, b :: ReportOn(ss[i], a, d) && ReportOn(ss[i], b, d) ==> a == b
  {
    hide Exec, Begin, Proper, Step, Inv;
    RunConserved(ss, ls, i);
    RunAccount(ss, ls, i);
    InterruptedExactly(ss, ls, i, d);
    hide CutAt, ProperRun;
    var s := ss[i];
    if HasReport(s.notices, d) {
      var n :| n in s.notices && s.notices[n] == d;
      assert Reports(s, n, d);
      assert ReportOn(s, n, d);
    }
  }
}
