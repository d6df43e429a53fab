/** The limit that the comment above handleBalDownstreamUploadRequest quotes from FCM's documentation: every message
    sent receives an ACK or a NACK, those that have received neither are pending, and at 100 pending messages the
    server should stop sending. This module keeps that set as history of a run and says exactly when a handler takes
    it past 100. */
module PendingLimit {
  import opened Core
  import opened MessageManager
  import opened Delivery
  import opened Durability
  import opened Structure
  import opened Handlers
  import opened Reach
  import opened Sweeps
  import opened GroupOrder
  import opened Traffic
  import opened Filing

  // ---------------------------------------------------------------- messages without an answer

  /** The FCM ids of some messages, by the table. */
  function Names(rows: map<SeqId, Row>, qs: set<SeqId>): set<FcmId> {
    set q | q in qs && q in rows :: rows[q].fcmId
  }

  function NewNames(s: State, t: State): set<FcmId> {
    if Grows(s, t) then Names(t.rows, ToFcm(News(s, t))) else {}
  }

  /** An ack or a nack answers its id, whether or not the message is still live. A new session leaves the rest
      unanswered, or, with `perSession`, starts afresh. */
  function Answered(u: set<FcmId>, e: Event, perSession: bool): set<FcmId> {
    match e
    case FcmAck(f, _) => u - {f}
    case FcmNack(f, _) => u - {f}
    case FcmUp => if perSession then {} else u
    case _ => u
  }

  /** A crash answers nothing. */
  function StepUnanswered(u: set<FcmId>, s: State, l: Label, t: State, perSession: bool): set<FcmId> {
    match l
    case Handle(e) => Answered(u, e, perSession) + NewNames(s, t)
    case Crash => u
    case _ => u + NewNames(s, t)
  }

  /** The FCM ids sent and not answered when a run has come to its i-th state. */
  function Unanswered(ss: seq<State>, ls: seq<Label>, i: nat, perSession: bool): set<FcmId>
    requires |ss| == |ls| + 1 && i <= |ls|
  {
    if i == 0 then {}
      else StepUnanswered(Unanswered(ss, ls, i - 1, perSession), ss[i - 1], ls[i - 1], ss[i], perSession)
  }

  /** What is unanswered after a whole handler. */
  ghost function After(u: set<FcmId>, s: State, e: Event, perSession: bool): set<FcmId>
    requires Boundary(s) && Allowed(s, e)
  {
    Answered(u, e, perSession) + NewNames(s, Handled(s, e))
  }

  // ---------------------------------------------------------------- the exact condition for one handler

  /** What, in the state before the handler, makes it leave more than 100 messages unanswered. */
  ghost predicate Overruns(s: State, u: set<FcmId>, e: Event, perSession: bool) {
    match e
    case Upload(_, group, f, _) =>
      |u| == MAX_PENDING_MESSAGES && f !in u && !AtLimit(s.fcm) && GroupFree(s.fcm, group)
    case FcmAck(f, _) => LetsAnotherOut(s, u, f)
    case FcmNack(f, retryable) => !retryable && LetsAnotherOut(s, u, f)
    case FcmUp =>
      !AtLimit(s.fcm) && |Answered(u, FcmUp, perSession) + Names(s.rows, Heads(s.fcm))| > MAX_PENDING_MESSAGES
    case TimerFires(t) =>
      |u| == MAX_PENDING_MESSAGES && t.k == Fcm && t.q in s.rows && s.rows[t.q].fcmId !in u
    case _ => false
  }

  /** A message that has no answer due is ended, and another such message goes out for it. */
  ghost predicate LetsAnotherOut(s: State, u: set<FcmId>, f: FcmId) {
    && |u| == MAX_PENDING_MESSAGES && f !in u
    && exists p :: p in Replacement(s.fcm, f) && p in s.rows && s.rows[p].fcmId !in u
  }

  /** The FCM ids that a handler sends. */
  ghost function SentNames(s: State, e: Event): set<FcmId> {
    if e.Upload? then (if SentBy(s, e) == {} then {} else {e.fcmId}) else Names(s.rows, SentBy(s, e))
  }

  lemma NamesStay(a: map<SeqId, Row>, b: map<SeqId, Row>, qs: set<SeqId>)
    requires RowsStay(a, b) && forall q :: q in qs ==> q in a
    ensures Names(b, qs) == Names(a, qs)
  {
    forall q | q in qs ensures q in b && b[q].fcmId == a[q].fcmId { }
  }

  lemma HandledRows(s: State, e: Event)
    requires Boundary(s) && Allowed(s, e)
    ensures RowsStay(s.rows, Handled(s, e).rows)
  {
    hide Begin, Drain;
    DrainGrows(Begin(s, e));
  }

  lemma SentAreFiled(s: State, e: Event)
    requires Filed(s) && Allowed(s, e) && !e.Upload?
    ensures forall q :: q in SentBy(s, e) ==> q in s.rows
  {
    hide ComesNext, HeadOfGroup, FindByFcmId;
  }

  lemma UploadName(s: State, e: Event)
    requires Base(s) && Boundary(s) && Allowed(s, e) && e.Upload?
    ensures Names(Handled(s, e).rows, SentBy(s, e)) == SentNames(s, e)
  {
    hide Begin, Drain, Add, CanSend, Put, CountUp, Base, GroupFree;
    BaseNextIsFree(s);
    UploadExact(s, e);
    var rows, id := Handled(s, e).rows, s.ctr + 1;
    assert id in rows && rows[id].fcmId == e.fcmId;
    assert Names(rows, {}) == {} && Names(rows, {id}) == {e.fcmId};
  }

  lemma AfterIs(s: State, u: set<FcmId>, e: Event, perSession: bool)
    requires Base(s) && Filed(s) && Boundary(s) && Allowed(s, e) && !Erases(s, e)
    ensures After(u, s, e, perSession) == Answered(u, e, perSession) + SentNames(s, e)
  {
    hide Base, Handled, Erases, Names, SentBy, ToFcm, News, Answered, Filed, RowsStay;
    SendsExactly(s, e);
    if e.Upload? {
      UploadName(s, e);
    } else {
      HandledRows(s, e);
      SentAreFiled(s, e);
      NamesStay(s.rows, Handled(s, e).rows, SentBy(s, e));
    }
  }

  lemma OneMore<T>(u: set<T>, x: T)
    ensures |u + {x}| == |u| + if x in u then 0 else 1
  {
    if x in u { assert u + {x} == u; }
  }

  lemma NamesOfOne(rows: map<SeqId, Row>, q: SeqId)
    ensures Names(rows, {}) == {} && Names(rows, {q}) == if q in rows then {rows[q].fcmId} else {}
  {
  }

  lemma OneReplacement(m: Mgr, f: FcmId, p: SeqId, r: SeqId)
    requires p in Replacement(m, f) && r in Replacement(m, f)
    ensures p == r
  {
    hide FindByFcmId;
  }

  lemma EndOverruns(s: State, u: set<FcmId>, f: FcmId)
    requires |u| <= MAX_PENDING_MESSAGES && forall p :: p in Replacement(s.fcm, f) ==> p in s.rows
    ensures |u - {f} + Names(s.rows, Replacement(s.fcm, f))| > MAX_PENDING_MESSAGES <==> LetsAnotherOut(s, u, f)
  {
    hide Replacement, Names;
    var r := Replacement(s.fcm, f);
    if r == {} {
      NamesOfOne(s.rows, 0);
      assert u - {f} + {} == u - {f};
    } else {
      var p := AnyOf(r);
      forall x | x in r ensures x == p { OneReplacement(s.fcm, f, x, p); }
      assert r == {p};
      NamesOfOne(s.rows, p);
      OneMore(u - {f}, s.rows[p].fcmId);
    }
  }

  /** The exact condition: from at most 100 unanswered messages, a handler leaves more if and only if `Overruns`
      holds of the state before it. A sweep that erases under its iterator has no outcome to speak of. */
  lemma OverrunsExactly(s: State, u: set<FcmId>, e: Event, perSession: bool)
    requires Base(s) && Filed(s) && Boundary(s) && Allowed(s, e) && !Erases(s, e)
    requires |u| <= MAX_PENDING_MESSAGES
    ensures |After(u, s, e, perSession)| > MAX_PENDING_MESSAGES <==> Overruns(s, u, e, perSession)
  {
    hide Base, Handled, Erases, Names, Filed, Replacement, GroupFree, Heads, LetsAnotherOut, After, SentNames, Overruns;
    AfterIs(s, u, e, perSession);
    if Ends(e) {
      SentAreFiled(s, e);
      EndsOverruns(s, u, e, perSession);
    } else if e.TimerFires? {
      TimerOverruns(s, u, e, perSession);
    } else if e.Upload? {
      UploadOverruns(s, u, e, perSession);
    } else {
      OtherOverruns(s, u, e, perSession);
    }
  }

  lemma EndsOverruns(s: State, u: set<FcmId>, e: Event, perSession: bool)
    requires Ends(e) && |u| <= MAX_PENDING_MESSAGES && forall q :: q in SentBy(s, e) ==> q in s.rows
    ensures |Answered(u, e, perSession) + SentNames(s, e)| > MAX_PENDING_MESSAGES <==> Overruns(s, u, e, perSession)
  {
    hide Names, Replacement, LetsAnotherOut;
    EndOverruns(s, u, e.fcmId);
  }

  lemma UploadOverruns(s: State, u: set<FcmId>, e: Event, perSession: bool)
    requires e.Upload? && |u| <= MAX_PENDING_MESSAGES
    ensures |Answered(u, e, perSession) + SentNames(s, e)| > MAX_PENDING_MESSAGES <==> Overruns(s, u, e, perSession)
  {
    hide GroupFree;
    OneMore(u, e.fcmId);
    assert u + {} == u;
  }

  lemma OtherOverruns(s: State, u: set<FcmId>, e: Event, perSession: bool)
    requires !Ends(e) && !e.TimerFires? && !e.Upload? && |u| <= MAX_PENDING_MESSAGES
    ensures |Answered(u, e, perSession) + SentNames(s, e)| > MAX_PENDING_MESSAGES <==> Overruns(s, u, e, perSession)
  {
    hide Names, GroupFree, Heads, Replacement, LetsAnotherOut;
    if e != FcmUp || AtLimit(s.fcm) {
      NamesOfOne(s.rows, 0);
      var a := Answered(u, e, perSession);
      assert SentNames(s, e) == {} && a + {} == a;
      SubsetSize(a, u);
    }
  }

  lemma TimerOverruns(s: State, u: set<FcmId>, e: Event, perSession: bool)
    requires e.TimerFires? && |u| <= MAX_PENDING_MESSAGES
    ensures |Answered(u, e, perSession) + SentNames(s, e)| > MAX_PENDING_MESSAGES <==> Overruns(s, u, e, perSession)
  {
    hide Names;
    NamesOfOne(s.rows, e.t.q);
    assert u + {} == u;
    if e.t.q in s.rows { OneMore(u, s.rows[e.t.q].fcmId); }
  }

  // ---------------------------------------------------------------- inside a handler

  /** The FCM ids that the rest of the handler would still send. */
  ghost function RestNames(s: State): set<FcmId> { NewNames(s, Drain(s)) }

  lemma NoRest(s: State)
    requires Silent(s)
    ensures RestNames(s) == {}
  {
    hide Drain, ToFcm, News, Silent;
    SilentDrain(s);
  }

  /** What is sent from s to t is in t's table. */
  lemma NewsAreFiled(s: State, t: State)
    requires Filed(t) && Grows(s, t)
    ensures forall q :: q in ToFcm(News(s, t)) ==> q in t.rows
  {
    forall q | q in ToFcm(News(s, t)) ensures q in t.rows {
      assert Sent(Fcm, q) in t.sent[|s.sent|..];
      assert Sent(Fcm, q) in t.sent;
    }
  }

  lemma NamesSplit(rows: map<SeqId, Row>, a: set<SeqId>, b: set<SeqId>)
    ensures Names(rows, a + b) == Names(rows, a) + Names(rows, b)
  {
  }

  /** Sent now and sent by the rest of the handler: together what was still to be sent. */
  lemma NamesNowAndLater(s: State, t: State, v: State)
    requires Grows(s, t) && Grows(t, v) && Filed(t) && RowsStay(t.rows, v.rows)
    ensures NewNames(s, v) == NewNames(s, t) + NewNames(t, v)
  {
    hide Names, ToFcm, News, RowsStay, Filed;
    NewsTrans(s, t, v);
    NewsAreFiled(s, t);
    NamesStay(t.rows, v.rows, ToFcm(News(s, t)));
    NamesSplit(v.rows, ToFcm(News(s, t)), ToFcm(News(t, v)));
  }

  lemma RestAfterStatement(s: State)
    requires Base(s) && Filed(s) && !Boundary(s)
    ensures RestNames(s) == NewNames(s, Exec(s)) + RestNames(Exec(s)) && Drain(Exec(s)) == Drain(s)
  {
    Ran(s, Exec(s));
    hide Exec, Drain, Base, Filed, NewNames, RowsStay;
    ExecGrows(s);
    DrainGrows(Exec(s));
    ExecFiled(s);
    NamesNowAndLater(s, Exec(s), Drain(s));
  }

  lemma RestAtBegin(s: State, e: Event)
    requires Base(s) && Filed(s) && Boundary(s) && Allowed(s, e)
    ensures NewNames(s, Handled(s, e)) == NewNames(s, Begin(s, e)) + RestNames(Begin(s, e))
  {
    assert Grows(s, Begin(s, e)) by { hide FindByFcmId, Retry, Base, Filed; }
    hide Begin, Drain, Base, Filed, NewNames, RowsStay, Grows;
    DrainGrows(Begin(s, e));
    BeginFiled(s, e);
    NamesNowAndLater(s, Begin(s, e), Handled(s, e));
  }

  // ---------------------------------------------------------------- every run

  /** A sweep over the FCM queue that is under way erases nothing. */
  ghost predicate Calm(s: State) {
    s.loop.Sweeping? && s.loop.k == Fcm ==>
      s.pc == Idle && s.loop.rest <= s.fcm.messages.Keys && !Erasing(s.fcm, Fcm, s.loop.rest)
  }

  predicate FcmLoop(l: Loop) { l.Sweeping? && l.k == Fcm }

  lemma OtherLoops(s: State)
    requires !Boundary(s) && !FcmLoop(s.loop)
    ensures !FcmLoop(Exec(s).loop)
  {
    hide CanSend, CanSendOnReconnect, Next, NoticeMsg, Remove, RemoveByFcmId, Put, Add, CountUp;
  }

  lemma CalmTurns(s: State)
    requires Base(s) && Calm(s) && FcmLoop(s.loop)
    ensures Calm(Exec(s))
  {
    var m, rest := s.fcm, s.loop.rest;
    assert Exec(s) == SweepTurn(s);
    if rest == {} {
      SweepEnds(s);
    } else {
      BaseSane(s, Fcm);
      hide Exec, Base, Erasing, Sane;
      ErasesNowOrLater(m, Fcm, rest);
      TurnKeys(m, Fcm, Least(rest));
      assert Sweepable(s) by { hide Steady; }
      hide SweepTurn, TurnMgr, TurnErases, TurnSends, CalmTurn, Steady, Drain;
      var t := TurnQuiet(s);
    }
  }

  lemma CalmStep(s: State)
    requires Base(s) && Calm(s) && !Boundary(s)
    ensures Calm(Exec(s))
  {
    hide Exec, Base, Erasing;
    if FcmLoop(s.loop) { CalmTurns(s); } else { OtherLoops(s); }
  }

  /** Even what the rest of the handler would send does not take the unanswered messages past 100. */
  ghost predicate Bounded(u: set<FcmId>, s: State) { |u + RestNames(s)| <= MAX_PENDING_MESSAGES }

  lemma {:induction false} SubsetSize<T>(a: set<T>, b: set<T>)
    requires a <= b
    ensures |a| <= |b|
  {
    assert b == a + (b - a);
  }

  /** A database error, or a crash, sends nothing and leaves nothing to send to FCM. */
  lemma CutShort(s: State, l: Label, t: State)
    requires Calm(s) && Step(s, l, t) && (l == DbFailure || l == Crash)
    ensures Silent(t) && Calm(t) && (l == DbFailure ==> NewNames(s, t) == {})
  {
    if l == DbFailure {
      NoNews(s, t);
      NamesOfOne(t.rows, 0);
    }
  }

  lemma BeginCalm(s: State, e: Event)
    requires Boundary(s) && Allowed(s, e) && !Erases(s, e)
    ensures Calm(Begin(s, e))
  {
    hide FindByFcmId, Retry, Erasing;
  }

  lemma StepBounded(u: set<FcmId>, s: State, l: Label, t: State, perSession: bool)
    requires Base(s) && Filed(s) && Calm(s) && Bounded(u, s) && Step(s, l, t)
    requires l.Handle? ==> !Erases(s, l.e) && !Overruns(s, u, l.e, perSession)
    ensures Calm(t) && Bounded(StepUnanswered(u, s, l, t, perSession), t)
  {
    hide Base, Filed, Exec, Begin, NewNames, Erases, Overruns, Answered, Calm, RestNames, Silent, Restarted, DbFailed;
    match l
    case Handle(e) =>
      assert Silent(s) by { BoundaryIsSilent(s); }
      NoRest(s);
      assert u + {} == u;
      BeginCalm(s, e);
      RestAtBegin(s, e);
      OverrunsExactly(s, u, e, perSession);
      var a := Answered(u, e, perSession);
      assert a + NewNames(s, t) + RestNames(t) == a + (NewNames(s, t) + RestNames(t));
    case Run =>
      CalmStep(s);
      RestAfterStatement(s);
      assert u + NewNames(s, t) + RestNames(t) == u + (NewNames(s, t) + RestNames(t));
    case _ =>
      CutShort(s, l, t);
      NoRest(t);
      assert StepUnanswered(u, s, l, t, perSession) + {} == u;
      SubsetSize(u, u + RestNames(s));
  }

  lemma BoundaryIsSilent(s: State)
    requires Boundary(s)
    ensures Silent(s)
  {
  }

  ghost predicate KeptAt(ss: seq<State>, ls: seq<Label>, i: nat, perSession: bool)
    requires |ss| == |ls| + 1 && i <= |ls|
  {
    |Unanswered(ss, ls, i, perSession)| <= MAX_PENDING_MESSAGES
  }

  /** No sweep of the run erases under its iterator. */
  ghost predicate ErasesNothing(ss: seq<State>, ls: seq<Label>)
    requires |ss| == |ls| + 1
  {
    forall j {:trigger ls[j]} :: 0 <= j < |ls| && ls[j].Handle? ==> !Erases(ss[j], ls[j].e)
  }

  /** A handler starts in a state that makes it overrun the limit. */
  ghost predicate OverrunsAt(ss: seq<State>, ls: seq<Label>, j: nat, perSession: bool)
    requires |ss| == |ls| + 1 && j < |ls|
  {
    ls[j].Handle? && Overruns(ss[j], Unanswered(ss, ls, j, perSession), ls[j].e, perSession)
  }

  lemma UnansweredStep(ss: seq<State>, ls: seq<Label>, i: nat, perSession: bool)
    requires |ss| == |ls| + 1 && i < |ls|
    ensures Unanswered(ss, ls, i + 1, perSession) ==
      StepUnanswered(Unanswered(ss, ls, i, perSession), ss[i], ls[i], ss[i + 1], perSession)
  {
  }

  lemma BoundedAtStart(s: State)
    requires Started(s)
    ensures Calm(s) && Bounded({}, s)
  {
    assert Boundary(s);
    hide Started, RestNames;
    BoundaryIsSilent(s);
    NoRest(s);
  }

  lemma {:induction false} RunBounded(ss: seq<State>, ls: seq<Label>, i: nat, perSession: bool)
    requires IsRun(ss, ls) && i <= |ls| && ErasesNothing(ss, ls)
    requires forall j :: 0 <= j < |ls| ==> !OverrunsAt(ss, ls, j, perSession)
    ensures Calm(ss[i]) && Bounded(Unanswered(ss, ls, i, perSession), ss[i])
  {
    hide Step, Calm, Bounded, Started, StepUnanswered, Base, Filed, Erases, Overruns;
    if i == 0 {
      BoundedAtStart(ss[0]);
    } else {
      hide Unanswered;
      var n := i - 1;
      RunBounded(ss, ls, n, perSession);
      RunBase(ss, ls, n);
      RunFiled(ss, ls, n);
      assert Step(ss[n], ls[n], ss[i]);
      assert !OverrunsAt(ss, ls, n, perSession);
      assert ls[n].Handle? ==> !Erases(ss[n], ls[n].e);
      UnansweredStep(ss, ls, n, perSession);
      StepBounded(Unanswered(ss, ls, n, perSession), ss[n], ls[n], ss[i], perSession);
    }
  }

  /** Whatever database errors and crashes cut handlers short: as long as no handler starts where the condition
      holds, at most 100 messages are unanswered in every state, statement by statement. */
  lemma KeptWithoutOverrun(ss: seq<State>, ls: seq<Label>, i: nat, perSession: bool)
    requires IsRun(ss, ls) && i <= |ls| && ErasesNothing(ss, ls)
    requires forall j :: 0 <= j < |ls| ==> !OverrunsAt(ss, ls, j, perSession)
    ensures KeptAt(ss, ls, i, perSession)
  {
    hide Step, Init, ErasesNothing, OverrunsAt, RestNames, Unanswered;
    RunBounded(ss, ls, i, perSession);
    var u := Unanswered(ss, ls, i, perSession);
    SubsetSize(u, u + RestNames(ss[i]));
  }

  // ---------------------------------------------------------------- handlers that come to their end

  /** The handler that starts at j is over at n. */
  ghost predicate EndsAt(ss: seq<State>, ls: seq<Label>, j: nat, n: nat)
    requires |ss| == |ls| + 1 && j < |ls|
  {
    && j < n <= |ls| && ls[j].Handle? && Boundary(ss[n])
    && forall i {:trigger ls[i]} :: j < i < n ==> ls[i] == Run
  }

  lemma HandleStep(s: State, e: Event, t: State)
    requires Step(s, Handle(e), t)
    ensures Boundary(s) && Allowed(s, e) && t == Begin(s, e)
  {
  }

  lemma RunStep(s: State, t: State)
    requires Step(s, Run, t)
    ensures !Boundary(s) && t == Exec(s)
  {
  }

  lemma {:induction false} DuringHandler(ss: seq<State>, ls: seq<Label>, j: nat, i: nat, perSession: bool)
    requires IsRun(ss, ls) && j < i <= |ls| && ls[j].Handle? && forall n {:trigger ls[n]} :: j < n < i ==> ls[n] == Run
    ensures Boundary(ss[j]) && Allowed(ss[j], ls[j].e) && Drain(ss[i]) == Handled(ss[j], ls[j].e)
    ensures Unanswered(ss, ls, i, perSession) + RestNames(ss[i]) ==
      After(Unanswered(ss, ls, j, perSession), ss[j], ls[j].e, perSession)
    decreases i - j
  {
    hide Base, Filed, Begin, NewNames, RestNames, Step, Answered, Drain, Exec, Unanswered, Init, Allowed, Boundary;
    var e, u, n := ls[j].e, Unanswered(ss, ls, j, perSession), i - 1;
    assert Step(ss[j], ls[j], ss[j + 1]);
    HandleStep(ss[j], e, ss[j + 1]);
    UnansweredStep(ss, ls, n, perSession);
    RunBase(ss, ls, n);
    RunFiled(ss, ls, n);
    if n == j {
      RestAtBegin(ss[j], e);
    } else {
      hide After, Handled;
      DuringHandler(ss, ls, j, n, perSession);
      assert ls[n] == Run && Step(ss[n], ls[n], ss[i]);
      RunStep(ss[n], ss[i]);
      RestAfterStatement(ss[n]);
    }
  }

  lemma HandlerUnanswered(ss: seq<State>, ls: seq<Label>, j: nat, n: nat, perSession: bool)
    requires IsRun(ss, ls) && j < |ls| && EndsAt(ss, ls, j, n)
    ensures Boundary(ss[j]) && Allowed(ss[j], ls[j].e) && ss[n] == Handled(ss[j], ls[j].e)
    ensures Unanswered(ss, ls, n, perSession) == After(Unanswered(ss, ls, j, perSession), ss[j], ls[j].e, perSession)
  {
    hide RestNames, After, Handled, Unanswered, Init, Step;
    DuringHandler(ss, ls, j, n, perSession);
    BoundaryIsSilent(ss[n]);
    NoRest(ss[n]);
    NothingToRun(ss[n]);
    assert Unanswered(ss, ls, n, perSession) + {} == Unanswered(ss, ls, n, perSession);
  }

  /** Where the condition holds, a handler that comes to its end has passed the limit. */
  lemma PassedByOverrun(ss: seq<State>, ls: seq<Label>, j: nat, n: nat, perSession: bool)
    requires IsRun(ss, ls) && j < |ls| && EndsAt(ss, ls, j, n) && !Erases(ss[j], ls[j].e)
    requires OverrunsAt(ss, ls, j, perSession) && KeptAt(ss, ls, j, perSession)
    ensures !KeptAt(ss, ls, n, perSession)
  {
    hide Base, Filed, After, Handled, Erases, Overruns, Unanswered, Init, Step;
    HandlerUnanswered(ss, ls, j, n, perSession);
    RunBase(ss, ls, j);
    RunFiled(ss, ls, j);
    OverrunsExactly(ss[j], Unanswered(ss, ls, j, perSession), ls[j].e, perSession);
  }

  /** Every run whose sweeps erase nothing, and in which handlers that meet the condition come to their end: the
      limit holds in every state if and only if no handler meets the condition. */
  lemma LimitKeptExactly(ss: seq<State>, ls: seq<Label>, perSession: bool)
    requires IsRun(ss, ls) && ErasesNothing(ss, ls)
    requires forall j :: 0 <= j < |ls| && OverrunsAt(ss, ls, j, perSession) ==> exists n :: EndsAt(ss, ls, j, n)
    ensures (forall i :: 0 <= i <= |ls| ==> KeptAt(ss, ls, i, perSession)) <==>
      (forall j :: 0 <= j < |ls| ==> !OverrunsAt(ss, ls, j, perSession))
  {
    hide OverrunsAt, EndsAt, Erases, Step, Init, KeptAt;
    if forall j :: 0 <= j < |ls| ==> !OverrunsAt(ss, ls, j, perSession) {
      forall i | 0 <= i <= |ls| ensures KeptAt(ss, ls, i, perSession) {
        KeptWithoutOverrun(ss, ls, i, perSession);
      }
    }
    if forall i :: 0 <= i <= |ls| ==> KeptAt(ss, ls, i, perSession) {
      forall j | 0 <= j < |ls| ensures !OverrunsAt(ss, ls, j, perSession) {
        if OverrunsAt(ss, ls, j, perSession) {
          var n :| EndsAt(ss, ls, j, n);
          OverrunHandles(ss, ls, j, n, perSession);
          assert !Erases(ss[j], ls[j].e);
          PassedByOverrun(ss, ls, j, n, perSession);
        }
      }
    }
  }

  lemma OverrunHandles(ss: seq<State>, ls: seq<Label>, j: nat, n: nat, perSession: bool)
    requires |ss| == |ls| + 1 && j < |ls| && OverrunsAt(ss, ls, j, perSession) && EndsAt(ss, ls, j, n)
    ensures ls[j].Handle? && n <= |ls|
  {
  }

  // ---------------------------------------------------------------- the restart route

  /** Right after a start the counter is 0 and no group is known, so the first FCM session sends every downstream
      message of the queue, and overruns the limit exactly when with them more than 100 ids are unanswered. */
  lemma FirstSessionSendsAll(s: State, u: set<FcmId>, perSession: bool)
    requires Started(s)
    ensures var down := set q | q in s.fcm.messages && s.fcm.messages[q].kind == Downstream;
      && s.fcm.pending == 0 && !Erases(s, FcmUp)
      && After(u, s, FcmUp, perSession) == Answered(u, FcmUp, perSession) + Names(s.rows, down)
      && (Overruns(s, u, FcmUp, perSession) <==> |After(u, s, FcmUp, perSession)| > MAX_PENDING_MESSAGES)
  {
    assert LoadedFrom(s.rows, FCM, s.fcm);
    StartedBase(s);
    StartedFiled(s);
    FcmErasing(s.fcm);
    forall q | q in s.fcm.messages ensures s.fcm.messages[q].group == "" {
      assert FromRow(s.fcm.messages[q], q, s.rows[q]);
    }
    hide Base, Filed, Handled, Started, LoadedFrom, Erasing, NoneSpent, After, Names;
    assert Heads(s.fcm) == set q | q in s.fcm.messages && s.fcm.messages[q].kind == Downstream;
    AfterIs(s, u, FcmUp, perSession);
  }
}
