/** Runs grow by whole handlers, and the standing assumption need only be looked at between handlers. */
module Reach {
  import opened Core
  import opened MessageManager
  import opened Delivery
  import opened Durability
  import opened Structure
  import opened Handlers

  // ---------------------------------------------------------------- managers that only lose messages

  /** Every message of n is one of m, with the same FCM id and retry cap. */
  ghost predicate Within(n: Mgr, m: Mgr) {
    forall q :: q in n.messages ==>
      q in m.messages && n.messages[q].fcmId == m.messages[q].fcmId && n.messages[q].maxRetry == m.messages[q].maxRetry
  }

  ghost predicate AllWithin(t: State, s: State) {
    t.bals.Keys == s.bals.Keys && forall k :: Has(t, k) ==> Has(s, k) && Within(MgrAt(t, k), MgrAt(s, k))
  }

  lemma WithinIsProper(t: State, s: State)
    requires Proper(s) && AllWithin(t, s)
    ensures Proper(t)
  {
    forall k | Has(t, k) ensures CappedIdsUnique(MgrAt(t, k)) {
      assert Has(s, k) && Within(MgrAt(t, k), MgrAt(s, k)) && CappedIdsUnique(MgrAt(s, k));
    }
  }

  lemma SameIsWithin(t: State, s: State)
    requires t.fcm == s.fcm && t.bals == s.bals
    ensures AllWithin(t, s)
  {
  }

  lemma OneIsWithin(t: State, s: State, k: Key, m: Mgr)
    requires Has(s, k) && Within(m, MgrAt(s, k))
    requires var u := WithMgr(s, k, m); t.fcm == u.fcm && t.bals == u.bals
    ensures AllWithin(t, s)
  {
  }

  lemma RetryWithin(s: State, k: Key, q: SeqId)
    requires Base(s) && Has(s, k) && q in MgrAt(s, k).messages
    ensures AllWithin(Retry(s, k, MgrAt(s, k).messages[q]), s)
  {
    BaseMgr(s, k);
    hide Base;
    OneIsWithin(Retry(s, k, MgrAt(s, k).messages[q]), s, k, Put(MgrAt(s, k), Retried(MgrAt(s, k).messages[q])));
  }

  lemma TurnWithin(s: State)
    requires Base(s) && s.pc == Idle && s.loop.Sweeping? && Has(s, s.loop.k)
    ensures AllWithin(SweepTurn(s), s)
  {
    var k, t, m := s.loop.k, SweepTurn(s), MgrAt(s, s.loop.k);
    if s.loop.rest != {} && Least(s.loop.rest) in m.messages
      && (m.messages[Least(s.loop.rest)].kind == Downstream) == k.Fcm? {
      var q := Least(s.loop.rest);
      var u := s.(loop := Sweeping(k, s.loop.rest - {q}));
      QuietBase(s, u);
      hide Base;
      var v := CanSendOnReconnect(m, m.messages[q]);
      hide CanSendOnReconnect;
      if v == TooManyPending {
        RetryWithin(u, k, q);
      } else if v == BadState && !k.Fcm? {
        OneIsWithin(t, s, k, Remove(m, q).0);
      } else {
        SameIsWithin(t, s);
      }
    } else {
      SameIsWithin(t, s);
    }
  }

  lemma StoreWithin(s: State)
    requires Base(s) && !s.pc.Idle? && !EndsMessage(s.pc) && !s.pc.AddNew?
    ensures AllWithin(StoreAndSend(s), s)
  {
    var t := StoreAndSend(s);
    if (s.pc.MarkMem? || s.pc.CountOne? || s.pc.ResendCount?) && Has(s, s.pc.k) {
      BaseMgr(s, s.pc.k);
      hide Base;
      OneIsWithin(t, s, s.pc.k, MgrAt(t, s.pc.k));
    } else {
      hide Base, CanSend;
      SameIsWithin(t, s);
    }
  }

  lemma EndWithin(s: State)
    requires EndsMessage(s.pc)
    ensures AllWithin(EndAndNotify(s), s)
  {
    var t := EndAndNotify(s);
    hide Next, NoticeMsg;
    if s.pc.Drop? && Has(s, s.pc.k) {
      OneIsWithin(t, s, s.pc.k, MgrAt(t, s.pc.k));
    } else {
      SameIsWithin(t, s);
    }
  }

  /** Only the statement that adds a message can bring in a shared FCM id. */
  lemma ExecWithin(s: State)
    requires Base(s) && !Boundary(s) && !s.pc.AddNew?
    ensures AllWithin(Exec(s), s)
  {
    hide StoreAndSend, EndAndNotify, SweepTurn, AllWithin, Base;
    if EndsMessage(s.pc) { EndWithin(s); }
    else if !s.pc.Idle? { StoreWithin(s); }
    else if Has(s, s.loop.k) { TurnWithin(s); }
    else { SameIsWithin(Abort(s), s); }
  }

  // ---------------------------------------------------------------- the invariant from handler to handler

  /** All that a properly reached state keeps. */
  ghost predicate Steady(s: State) { Inv(s) && Base(s) && Proper(s) }

  /** A statement that adds nothing keeps the invariant without further assumption. */
  lemma ExecKeepsBoth(s: State)
    requires Steady(s) && !Boundary(s) && !s.pc.AddNew?
    ensures Steady(Exec(s)) && Drain(Exec(s)) == Drain(s)
  {
    Ran(s, Exec(s));
    hide Exec, Inv, Base, Proper, Drain, AllWithin;
    ExecWithin(s);
    WithinIsProper(Exec(s), s);
    ExecBase(s);
    ExecKeeps(s);
  }

  /** From the attempt to send to the end of the handler. */
  predicate Sending(s: State) {
    s.loop == NoLoop && (s.pc.TrySend? || s.pc.MarkRow? || s.pc.MarkMem? || s.pc.CountOne? || s.pc.Emit? || s.pc.Idle?)
  }

  lemma WithinOne(s: State, t: State, k: Key, m: Mgr)
    requires Has(s, k) && Within(MgrAt(s, k), m)
    requires var u := WithMgr(s, k, m); t.fcm == u.fcm && t.bals == u.bals
    ensures AllWithin(s, t)
  {
  }

  lemma MarkingKeepsIds(s: State)
    requires Base(s) && (s.pc.MarkMem? || s.pc.CountOne?) && Has(s, s.pc.k)
    ensures AllWithin(s, StoreAndSend(s))
  {
    var k, q := s.pc.k, s.pc.q;
    var m := MgrAt(s, k);
    BaseMgr(s, k);
    hide Base;
    if s.pc.CountOne? {
      WithinOne(s, StoreAndSend(s), k, CountUp(m));
    } else if q in m.messages {
      WithinOne(s, StoreAndSend(s), k, Put(m, m.messages[q].(state := PendingAck)));
    } else {
      SameIsWithin(s, StoreAndSend(s));
    }
  }

  lemma SendingStep(s: State)
    requires Base(s) && Sending(s) && !Boundary(s)
    ensures Sending(Exec(s)) && AllWithin(s, Exec(s))
  {
    var t := StoreAndSend(s);
    assert t == Exec(s);
    hide Exec, Base, CanSend, AllWithin, Put, CountUp;
    if (s.pc.MarkMem? || s.pc.CountOne?) && Has(s, s.pc.k) {
      MarkingKeepsIds(s);
    } else {
      SameIsWithin(s, t);
    }
  }

  lemma WithinTrans(a: State, b: State, c: State)
    requires AllWithin(a, b) && AllWithin(b, c)
    ensures AllWithin(a, c)
  {
  }

  lemma {:induction false} SendingKeepsIds(s: State)
    requires Base(s) && Sending(s)
    ensures AllWithin(s, Drain(s))
    decreases Work(s)
  {
    if Boundary(s) {
      NothingToRun(s);
      SameIsWithin(s, s);
    } else {
      HandlersEnd(s);
      SendingStep(s);
      ExecBase(s);
      Ran(s, Exec(s));
      hide Exec, Drain, Work, Base, Sending;
      SendingKeepsIds(Exec(s));
      WithinTrans(s, Exec(s), Drain(s));
    }
  }

  lemma AddThenSends(s: State)
    requires Inv(s) && s.pc.AddNew?
    ensures Sending(Exec(s))
  {
    hide Add;
  }

  /** One statement, when the handler's result meets the assumption. */
  lemma ExecOnTheWay(s: State)
    requires Steady(s) && !Boundary(s) && Proper(Drain(s))
    ensures Steady(Exec(s)) && Drain(Exec(s)) == Drain(s)
  {
    if s.pc.AddNew? {
      Ran(s, Exec(s));
      AddThenSends(s);
      hide Exec, Inv, Proper, Drain, Base, AllWithin, Sending;
      ExecBase(s);
      SendingKeepsIds(Exec(s));
      WithinIsProper(Exec(s), Drain(s));
      ExecKeeps(s);
    } else {
      hide Exec, Steady, Drain;
      ExecKeepsBoth(s);
    }
  }

  /** The states of a handler that runs to its end. */
  ghost function States(s: State): (ss: seq<State>)
    ensures ss != [] && ss[0] == s
    decreases Work(s)
  {
    if Boundary(s) then [s]
    else
      HandlersEnd(s);
      [s] + States(Exec(s))
  }

  lemma StatesNext(s: State)
    requires !Boundary(s)
    ensures States(s) == [s] + States(Exec(s)) && Work(Exec(s)) < Work(s) && Drain(s) == Drain(Exec(s))
    ensures Step(s, Run, Exec(s))
  {
    HandlersEnd(s);
    Ran(s, Exec(s));
  }

  lemma StatesEnd(s: State)
    requires Boundary(s)
    ensures States(s) == [s] && Drain(s) == s
  {
  }

  /** They are steps of a run, and the last is what the handler leaves. */
  lemma {:induction false} StatesAreSteps(s: State)
    ensures States(s)[|States(s)| - 1] == Drain(s)
    ensures forall i {:trigger States(s)[i]} :: 0 <= i < |States(s)| - 1 ==> Step(States(s)[i], Run, States(s)[i + 1])
    decreases Work(s)
  {
    hide Exec, Drain, Work, States, Step;
    if Boundary(s) {
      StatesEnd(s);
    } else {
      StatesNext(s);
      var rest := States(Exec(s));
      StatesAreSteps(Exec(s));
      forall i | 0 <= i < |States(s)| - 1 ensures Step(States(s)[i], Run, States(s)[i + 1]) {
        if i > 0 { assert States(s)[i] == rest[i - 1] && States(s)[i + 1] == rest[i]; }
      }
    }
  }

  /** Each meets invariant and assumption when the first and the last meet the assumption. */
  lemma {:induction false} StatesAreSteady(s: State)
    requires Steady(s) && Proper(Drain(s))
    ensures forall i :: 0 <= i < |States(s)| ==> Steady(States(s)[i])
    decreases Work(s)
  {
    hide Exec, Drain, Work, States, Steady, Step, Proper;
    if Boundary(s) {
      StatesEnd(s);
    } else {
      StatesNext(s);
      ExecOnTheWay(s);
      StatesAreSteady(Exec(s));
    }
  }

  /** The state that a handler leaves when nothing interrupts it. */
  ghost function Handled(s: State, e: Event): (t: State)
    requires Boundary(s) && Allowed(s, e)
    ensures Boundary(t)
  {
    Drain(Begin(s, e))
  }

  lemma BeginSteady(s: State, e: Event)
    requires Steady(s) && Boundary(s) && Allowed(s, e)
    ensures Steady(Begin(s, e))
  {
    hide Begin, FindByFcmId, Inv, Proper, Base, AllWithin;
    BeginKeeps(s, e);
    BeginBase(s, e);
    BeginCases(s, e);
    if Retries(s, e) {
      BaseMgr(s, Fcm);
      FoundIn(s.fcm, e.fcmId);
      RetryWithin(s, Fcm, s.fcm.index[e.fcmId]);
    } else {
      SameIsWithin(Begin(s, e), s);
    }
    WithinIsProper(Begin(s, e), s);
  }

  /** A whole handler keeps the invariant when its result meets the assumption. */
  lemma HandledKeeps(s: State, e: Event)
    requires Steady(s) && Boundary(s) && Allowed(s, e) && Proper(Handled(s, e))
    ensures Steady(Handled(s, e))
  {
    hide Begin, Drain, Steady, Proper, States;
    BeginSteady(s, e);
    var ss := States(Begin(s, e));
    StatesAreSteps(Begin(s, e));
    StatesAreSteady(Begin(s, e));
    assert Steady(ss[|ss| - 1]);
  }

  // ---------------------------------------------------------------- reached states

  ghost predicate AllProper(ss: seq<State>) { forall j :: 0 <= j < |ss| ==> Proper(ss[j]) }

  /** A run of any kind ends here. */
  ghost predicate Reached(s: State) {
    exists ss, ls :: IsRun(ss, ls) && ss[|ss| - 1] == s
  }

  /** A run that meets the standing assumption ends here. */
  ghost predicate ReachedProperly(s: State) {
    exists ss, ls :: IsRun(ss, ls) && ss[|ss| - 1] == s && AllProper(ss)
  }

  /** A run goes on with a whole handler. */
  lemma ExtendRun(ss: seq<State>, ls: seq<Label>, e: Event) returns (ss': seq<State>, ls': seq<Label>)
    requires IsRun(ss, ls) && Boundary(ss[|ss| - 1]) && Allowed(ss[|ss| - 1], e)
    ensures IsRun(ss', ls') && |ss'| > |ss| && ss'[..|ss|] == ss && ls' == ls + [Handle(e)] + Runs(|ss'| - |ss| - 1)
    ensures ss'[|ss'| - 1] == Handled(ss[|ss| - 1], e)
    ensures AllProper(ss) && Proper(Handled(ss[|ss| - 1], e)) ==> AllProper(ss')
  {
    var s := ss[|ss| - 1];
    var b := Begin(s, e);
    ss', ls' := ss + States(b), ls + [Handle(e)] + Runs(|States(b)| - 1);
    assert Step(s, Handle(e), b);
    hide Begin, Drain, Step, States, Proper;
    StatesAreSteps(b);
    Joined(ss, ls, States(b), e);
    if AllProper(ss) && Proper(Handled(s, e)) {
      RunSteady(ss, ls, |ss| - 1);
      AllSteady(ss, e);
    }
  }

  function Runs(n: nat): seq<Label> { seq(n, _ => Run) }

  /** A run, a handler's first step, and its statements. */
  lemma Joined(ss: seq<State>, ls: seq<Label>, more: seq<State>, e: Event)
    requires IsRun(ss, ls) && more != [] && Step(ss[|ss| - 1], Handle(e), more[0])
    requires forall i {:trigger more[i]} :: 0 <= i < |more| - 1 ==> Step(more[i], Run, more[i + 1])
    ensures IsRun(ss + more, ls + [Handle(e)] + Runs(|more| - 1))
  {
    hide Step, Init;
    var ss', ls' := ss + more, ls + [Handle(e)] + Runs(|more| - 1);
    forall i | 0 <= i < |ls'| ensures Step(ss'[i], ls'[i], ss'[i + 1]) {
      if i < |ls| {
        assert ls'[i] == ls[i];
      } else if i > |ls| {
        assert ss'[i] == more[i - |ss|] && ls'[i] == Run;
      }
    }
  }

  lemma AllSteady(ss: seq<State>, e: Event)
    requires ss != [] && AllProper(ss) && Steady(ss[|ss| - 1]) && Boundary(ss[|ss| - 1]) && Allowed(ss[|ss| - 1], e)
    requires Proper(Handled(ss[|ss| - 1], e))
    ensures AllProper(ss + States(Begin(ss[|ss| - 1], e)))
  {
    hide Begin, Drain, Steady, Proper, States;
    var b := Begin(ss[|ss| - 1], e);
    BeginSteady(ss[|ss| - 1], e);
    StatesAreSteady(b);
    var ss' := ss + States(b);
    forall j | 0 <= j < |ss'| ensures Proper(ss'[j]) {
      if j >= |ss| { SteadyIsProper(States(b)[j - |ss|]); }
    }
  }

  lemma SteadyIsProper(s: State)
    requires Steady(s)
    ensures Proper(s)
  {
  }

  lemma RunSteady(ss: seq<State>, ls: seq<Label>, i: nat)
    requires IsRun(ss, ls) && AllProper(ss) && i < |ss|
    ensures Steady(ss[i])
  {
    RunKeeps(ss, ls, i);
    RunBase(ss, ls, i);
  }

  lemma HandledIsReached(s: State, e: Event)
    requires Reached(s) && Boundary(s) && Allowed(s, e)
    ensures Reached(Handled(s, e))
  {
    var ss, ls :| IsRun(ss, ls) && ss[|ss| - 1] == s;
    hide IsRun, Handled, AllProper;
    var ss', ls' := ExtendRun(ss, ls, e);
  }

  lemma HandledIsReachedProperly(s: State, e: Event)
    requires ReachedProperly(s) && Boundary(s) && Allowed(s, e) && Proper(Handled(s, e))
    ensures ReachedProperly(Handled(s, e))
  {
    var ss, ls :| IsRun(ss, ls) && ss[|ss| - 1] == s && AllProper(ss);
    hide IsRun, Handled, AllProper, Proper;
    var ss', ls' := ExtendRun(ss, ls, e);
  }

  lemma ReachedIsSteady(s: State)
    requires ReachedProperly(s)
    ensures Steady(s)
  {
    var ss, ls :| IsRun(ss, ls) && ss[|ss| - 1] == s && AllProper(ss);
    hide IsRun, Steady;
    RunSteady(ss, ls, |ss| - 1);
  }

  /** A restart from any reached state, at any statement. */
  lemma CrashExtends(ss: seq<State>, ls: seq<Label>, t: State) returns (ss': seq<State>, ls': seq<Label>)
    requires IsRun(ss, ls) && Restarted(ss[|ss| - 1], t)
    ensures IsRun(ss', ls') && ss' == ss + [t] && ls' == ls + [Crash]
  {
    ss', ls' := ss + [t], ls + [Crash];
    assert Step(ss[|ss| - 1], Crash, t);
    hide Step, Restarted;
    forall i | 0 <= i < |ls'| ensures Step(ss'[i], ls'[i], ss'[i + 1]) {
      if i < |ls| { assert ls'[i] == ls[i]; }
    }
  }

  // ---------------------------------------------------------------- a restart is always possible

  ghost function Reloaded(rows: map<SeqId, Row>, b: SessionId): map<SeqId, Msg> {
    map q | q in PendingFor(rows, b) ::
      Msg(q, rows[q].kind, rows[q].fcmId, "", rows[q].source, rows[q].target, rows[q].payload, rows[q].state, 0, -1)
  }

  ghost function IdsOf(ms: map<SeqId, Msg>): set<FcmId> { set q | q in ms :: ms[q].fcmId }

  lemma IdFound(ms: map<SeqId, Msg>, f: FcmId)
    requires f in IdsOf(ms)
    ensures exists q :: q in ms && ms[q].fcmId == f
  {
  }

  ghost function Chosen(ms: map<SeqId, Msg>, f: FcmId): (q: SeqId)
    requires f in IdsOf(ms)
    ensures q in ms && ms[q].fcmId == f
  {
    IdFound(ms, f);
    var q :| q in ms && ms[q].fcmId == f;
    q
  }

  /** One manager that the reload may produce, with no retry caps. */
  ghost function Loaded(rows: map<SeqId, Row>, b: SessionId): Mgr {
    var ms := Reloaded(rows, b);
    Mgr(ms, map f | f in IdsOf(ms) :: Chosen(ms, f), map[], 0)
  }

  lemma LoadedIsLoaded(rows: map<SeqId, Row>, b: SessionId)
    ensures LoadedFrom(rows, b, Loaded(rows, b))
    ensures forall q :: q in Loaded(rows, b).messages ==> Loaded(rows, b).messages[q].maxRetry == -1
  {
    var m := Loaded(rows, b);
    forall q | q in m.messages ensures m.messages[q].fcmId in m.index {
      assert m.messages[q].fcmId in IdsOf(m.messages);
    }
  }

  lemma MaxKeyExists(rows: map<SeqId, Row>) returns (c: SeqId)
    ensures IsMaxKey(rows, c)
  {
    if rows == map[] {
      c := 0;
    } else {
      assert |rows.Keys| > 0 by { assert rows.Keys != {}; }
      c := GreatestOf(rows.Keys);
    }
  }

  lemma {:induction false} GreatestOf(s: set<SeqId>) returns (c: SeqId)
    requires |s| > 0
    ensures c in s && forall q :: q in s ==> q <= c
    decreases |s|
  {
    var a := AnyOf(s);
    var r := s - {a};
    if |r| == 0 {
      c := a;
      forall q | q in s ensures q <= c { assert q !in r; }
    } else {
      var d := GreatestOf(r);
      c := if a < d then d else a;
      forall q | q in s ensures q <= c { assert q == a || q in r; }
    }
  }

  /** After a crash at any statement of any state the daemon can start again on its table. */
  lemma RestartPossible(s: State) returns (t: State)
    ensures Restarted(s, t) && t.bals.Keys == s.bals.Keys && IsMaxKey(s.rows, t.ctr)
    ensures t.fcm == Loaded(s.rows, FCM) && forall b :: b in t.bals ==> t.bals[b] == Loaded(s.rows, b)
  {
    var c := MaxKeyExists(s.rows);
    var bals := map b | b in s.bals :: Loaded(s.rows, b);
    t := State(s.rows, c, Loaded(s.rows, FCM), bals, multiset{}, Idle, NoLoop, [], c, s.acked, s.notices,
      s.interrupted + Owing(s.pc));
    LoadedIsLoaded(s.rows, FCM);
    forall b | b in t.bals ensures LoadedFrom(t.rows, b, t.bals[b]) { LoadedIsLoaded(s.rows, b); }
  }

  /** The first start. */
  lemma FirstState() returns (s: State)
    ensures Init(s) && s.bals == map[] && s.ctr == 0 && s.fcm == EMPTY && IsRun([s], [])
  {
    s := State(map[], 0, EMPTY, map[], multiset{}, Idle, NoLoop, [], 0, {}, map[], {});
    assert PendingFor(s.rows, FCM) == {};
    assert LoadedFrom(s.rows, FCM, s.fcm);
  }
}
