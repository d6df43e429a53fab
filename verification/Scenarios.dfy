/** Runs from an empty table in which documented promises are not kept: more than 100 messages unanswered, by three
    routes; a message sent twice; one that overtakes an older one of its group; a sweep that erases from its map. */
module Scenarios {
  import opened Core
  import opened MessageManager
  import opened Delivery
  import opened Durability
  import opened Structure
  import opened Handlers
  import opened Reach
  import opened Sweeps
  import opened GroupOrder
  import opened Traffic
  import opened Filing
  import opened PendingLimit

  // ---------------------------------------- runs without sessions and with at most one retry cap

  /** Message c has FCM id "c"; no other message has it, or a retry cap. */
  predicate PlainMsg(m: Msg, c: SeqId) {
    if m.id == c then m.fcmId == "c" else m.maxRetry == -1 && m.fcmId != "c"
  }

  ghost predicate Plain(s: State, c: SeqId) {
    && s.bals == map[] && s.loop == NoLoop
    && (forall q :: q in s.fcm.messages ==> s.fcm.messages[q].id == q && PlainMsg(s.fcm.messages[q], c))
    && ((s.pc.AddNew? || s.pc.AckUpstream? || s.pc.SaveNew?) && s.pc.k == Fcm ==> PlainMsg(s.pc.m, c))
  }

  lemma PlainIsProper(s: State, c: SeqId)
    requires Plain(s, c)
    ensures Proper(s)
  {
  }

  lemma PlainStore(s: State, c: SeqId)
    requires Plain(s, c) && !s.pc.Idle? && !EndsMessage(s.pc)
    ensures Plain(StoreAndSend(s), c) && StoreAndSend(s).timers == s.timers
  {
    hide CanSend, GroupRule;
  }

  lemma PlainEnd(s: State, c: SeqId)
    requires Plain(s, c) && EndsMessage(s.pc)
    ensures Plain(EndAndNotify(s), c) && EndAndNotify(s).timers == s.timers
  {
    hide Next, NoticeMsg, Remove;
    var m := s.pc;
    if m.Drop? {
      RemoveOnly(s.fcm, m.m.id);
      if m.m.fcmId in s.fcm.index { RemoveOnly(s.fcm, s.fcm.index[m.m.fcmId]); }
    }
  }

  lemma {:induction false} PlainDrain(s: State, c: SeqId)
    requires Plain(s, c)
    ensures Plain(Drain(s), c) && Drain(s).timers == s.timers
    decreases Work(s)
  {
    if Boundary(s) {
      NothingToRun(s);
    } else {
      HandlersEnd(s);
      Ran(s, Exec(s));
      if EndsMessage(s.pc) { PlainEnd(s, c); } else { PlainStore(s, c); }
      hide StoreAndSend, EndAndNotify, SweepTurn, Drain, Work, Plain;
      PlainDrain(Exec(s), c);
    }
  }

  /** Events of these runs. */
  predicate PlainEvent(s: State, e: Event, c: SeqId) {
    e.FcmAck? || e.FcmNack? || e.TimerFires? || (e.Upload? && (e.fcmId == "c" <==> s.ctr + 1 == c))
  }

  lemma BeginPlain(s: State, e: Event, c: SeqId)
    requires Plain(s, c) && Boundary(s) && Allowed(s, e) && PlainEvent(s, e, c)
    ensures Plain(Begin(s, e), c)
  {
    BeginCases(s, e);
    if Retries(s, e) {
      var q := s.fcm.index[e.fcmId];
      assert s.fcm.messages[q].id == q;
      hide Begin;
      assert PlainMsg(Retried(s.fcm.messages[q]), c);
    } else {
      assert Begin(s, e).loop == NoLoop by { hide FindByFcmId; }
      hide FindByFcmId;
    }
  }

  lemma PlainHandled(s: State, e: Event, c: SeqId)
    requires Plain(s, c) && Boundary(s) && Allowed(s, e) && PlainEvent(s, e, c)
    ensures Plain(Handled(s, e), c) && Handled(s, e).timers == Begin(s, e).timers
  {
    BeginPlain(s, e, c);
    hide Begin, Drain, Plain, PlainEvent;
    PlainDrain(Begin(s, e), c);
  }

  /** A run that ends between handlers, in s. */
  ghost predicate EndsIn(ss: seq<State>, ls: seq<Label>, s: State, c: SeqId) {
    IsRun(ss, ls) && AllProper(ss) && ss[|ss| - 1] == s && Boundary(s) && Plain(s, c)
  }

  lemma InBetween(ss: seq<State>, ls: seq<Label>, s: State, c: SeqId)
    requires EndsIn(ss, ls, s, c)
    ensures Boundary(s) && IsRun(ss, ls) && |ss| == |ls| + 1 && ss[|ls|] == s && AllProper(ss) && Steady(s) && Filed(s)
  {
    hide Plain, Proper, Steady, Filed, Step, Init;
    RunSteady(ss, ls, |ls|);
    RunFiled(ss, ls, |ls|);
  }

  /** The events of a run, in order. */
  function Events(ls: seq<Label>): seq<Event> {
    if ls == [] then []
    else Events(ls[..|ls| - 1]) + (if ls[|ls| - 1].Handle? then [ls[|ls| - 1].e] else [])
  }

  lemma {:induction false} EventsRuns(ls: seq<Label>, n: nat)
    ensures Events(ls + Runs(n)) == Events(ls)
    decreases n
  {
    var more := ls + Runs(n);
    if n == 0 {
      assert more == ls;
    } else {
      assert more[..|more| - 1] == ls + Runs(n - 1);
      EventsRuns(ls, n - 1);
    }
  }

  lemma EventsOne(ls: seq<Label>, l: Label)
    ensures Events(ls + [l]) == Events(ls) + if l.Handle? then [l.e] else []
  {
    assert (ls + [l])[..|ls|] == ls;
  }

  lemma {:induction false} SamePrefix(ss: seq<State>, ls: seq<Label>, ss': seq<State>, ls': seq<Label>, i: nat,
      perSession: bool)
    requires |ss| == |ls| + 1 && |ss'| == |ls'| + 1 && i <= |ls| <= |ls'| && ss'[..|ss|] == ss && ls'[..|ls|] == ls
    ensures Unanswered(ss', ls', i, perSession) == Unanswered(ss, ls, i, perSession)
  {
    hide StepUnanswered;
    if i > 0 {
      SamePrefix(ss, ls, ss', ls', i - 1, perSession);
      assert ss'[i - 1] == ss'[..|ss|][i - 1] && ss'[i] == ss'[..|ss|][i] && ls'[i - 1] == ls'[..|ls|][i - 1];
    }
  }

  /** The ids without an answer at the end of a run. */
  ghost function Open(ss: seq<State>, ls: seq<Label>, perSession: bool): set<FcmId>
    requires |ss| == |ls| + 1
  {
    Unanswered(ss, ls, |ls|, perSession)
  }

  lemma ExtendedOpen(ss: seq<State>, ls: seq<Label>, ss': seq<State>, ls': seq<Label>, e: Event, perSession: bool)
    requires IsRun(ss, ls) && IsRun(ss', ls') && |ss'| > |ss| && ss'[..|ss|] == ss
    requires ls' == ls + [Handle(e)] + Runs(|ss'| - |ss| - 1)
    requires Boundary(ss[|ls|]) && Allowed(ss[|ls|], e) && Boundary(ss'[|ls'|])
    ensures Open(ss', ls', perSession) == After(Open(ss, ls, perSession), ss[|ls|], e, perSession)
    ensures Events(ls') == Events(ls) + [e]
  {
    hide Step, Init, After, Unanswered, Boundary, Allowed, Events;
    Extended(ls, e, |ss'| - |ss| - 1);
    SamePrefix(ss, ls, ss', ls', |ls|, perSession);
    assert ss'[|ls|] == ss'[..|ss|][|ls|];
    HandlerUnanswered(ss', ls', |ls|, |ls'|, perSession);
  }

  lemma Extended(ls: seq<Label>, e: Event, n: nat)
    ensures var more := ls + [Handle(e)] + Runs(n);
      && more[..|ls|] == ls && more[|ls|] == Handle(e) && (forall i :: |ls| < i < |more| ==> more[i] == Run)
      && Events(more) == Events(ls) + [e]
  {
    EventsOne(ls, Handle(e));
    EventsRuns(ls + [Handle(e)], n);
  }

  lemma GoOn(ss: seq<State>, ls: seq<Label>, s: State, e: Event, c: SeqId, perSession: bool)
    returns (ss': seq<State>, ls': seq<Label>)
    requires EndsIn(ss, ls, s, c) && Allowed(s, e) && PlainEvent(s, e, c)
    ensures EndsIn(ss', ls', Handled(s, e), c) && |ss| == |ls| + 1 && |ss'| == |ls'| + 1
    ensures Open(ss', ls', perSession) == After(Open(ss, ls, perSession), s, e, perSession)
    ensures Events(ls') == Events(ls) + [e]
  {
    PlainHandled(s, e, c);
    PlainIsProper(Handled(s, e), c);
    hide Handled, Plain, Proper, Step, Init, PlainEvent, Allowed, After, Open;
    ss', ls' := ExtendRun(ss, ls, e);
    ExtendedOpen(ss, ls, ss', ls', e, perSession);
  }

  lemma Start(c: SeqId, perSession: bool) returns (ss: seq<State>, ls: seq<Label>, s: State)
    ensures EndsIn(ss, ls, s, c) && s.fcm == EMPTY && s.sent == [] && s.ctr == 0 && s.timers == multiset{}
    ensures s.rows == map[]
    ensures |ss| == |ls| + 1 && Open(ss, ls, perSession) == {} && Events(ls) == []
  {
    s := FirstState();
    ss, ls := [s], [];
    assert Plain(s, c);
    PlainIsProper(s, c);
  }

  function PlainUpload(group: GroupId, fcmId: FcmId): Event { Upload("", group, fcmId, "") }

  // ---------------------------------------------------------------- uploads

  /** All that matters here of one upload. */
  lemma UploadEffect(s: State, e: Event, u: set<FcmId>, c: SeqId, perSession: bool)
    requires Base(s) && Filed(s) && Boundary(s) && Allowed(s, e) && e.Upload? && Plain(s, c) && PlainEvent(s, e, c)
    ensures var m := UploadMsg(s, e); var a := Add(s.fcm, m); var t := Handled(s, e);
      var ok := !AtLimit(s.fcm) && GroupFree(s.fcm, e.group);
      && t.fcm == (if ok then CountUp(Put(a, m.(state := PendingAck))) else a)
      && t.sent == (if ok then s.sent + [Sent(Fcm, m.id)] else s.sent)
      && After(u, s, e, perSession) == u + (if ok then {e.fcmId} else {})
      && t.timers == s.timers && RowsStay(s.rows, t.rows)
      && t.rows == s.rows[m.id := RowOf(m.(state := if ok then PendingAck else New))]
      && m.id !in s.fcm.messages && a.messages == s.fcm.messages[m.id := m] && a.pending == s.fcm.pending
  {
    BaseNextIsFree(s);
    UploadExact(s, e);
    AddedCanSend(s.fcm, UploadMsg(s, e));
    HandledRows(s, e);
    PlainHandled(s, e, c);
    assert Begin(s, e).timers == s.timers;
    AddKeepsValid(s.fcm, UploadMsg(s, e));
    hide Begin, Drain, Base, Filed, Plain, Add, CanSend, Put, CountUp, GroupFree, RowsStay, Valid, PlainEvent;
    AfterIs(s, u, e, perSession);
  }

  /** Names that no one else uses. */
  function Name(n: nat): FcmId { seq(n + 2, _ => 'x') }

  lemma NewName(u: set<FcmId>, n: nat)
    requires forall f :: f in u ==> |f| < n + 2
    ensures |u + {Name(n)}| == |u| + 1 && Name(n) != "c" && forall f :: f in u + {Name(n)} ==> |f| < n + 1 + 2
  {
    assert |Name(n)| == n + 2;
    OneMore(u, Name(n));
  }

  /** What uploads leave as it is: messages that were there, timers and rows. */
  ghost predicate Carried(s: State, t: State) {
    && (forall q :: q in s.fcm.messages ==> q in t.fcm.messages && t.fcm.messages[q] == s.fcm.messages[q])
    && (forall q :: q in t.fcm.messages && q <= s.ctr ==> q in s.fcm.messages)
    && t.timers == s.timers && RowsStay(s.rows, t.rows) && s.ctr <= t.ctr
  }

  lemma UploadCarries(s: State, e: Event, c: SeqId, perSession: bool)
    requires Base(s) && Filed(s) && Boundary(s) && Allowed(s, e) && e.Upload? && Plain(s, c) && PlainEvent(s, e, c)
    ensures Carried(s, Handled(s, e))
  {
    hide Base, Filed, Plain, Handled, Add, RowsStay, GroupFree, After;
    UploadEffect(s, e, {}, c, perSession);
    Numbering(s, e);
  }

  lemma CarriedTrans(a: State, b: State, c: State)
    requires Carried(a, b) && Carried(b, c)
    ensures Carried(a, c)
  {
    RowsStayTrans(a.rows, b.rows, c.rows);
  }

  lemma CarriedSame(a: State)
    ensures Carried(a, a)
  {
  }

  lemma Numbering(s: State, e: Event)
    requires Boundary(s) && Allowed(s, e)
    ensures s.ctr <= Handled(s, e).ctr
  {
    assert s.ctr <= Begin(s, e).ctr by { hide FindByFcmId, Retry; }
    hide Begin, Drain;
    DrainNumbers(Begin(s, e));
  }

  lemma {:induction false} DrainNumbers(s: State)
    ensures s.ctr <= Drain(s).ctr
    decreases Work(s)
  {
    if Boundary(s) {
      NothingToRun(s);
    } else {
      HandlersEnd(s);
      Ran(s, Exec(s));
      hide Drain, Work;
      DrainNumbers(Exec(s));
    }
  }

  /** Below the limit each ungrouped upload adds one to the counter and one to the ids without an answer. */
  lemma {:induction false} Uploads(ss: seq<State>, ls: seq<Label>, s: State, c: SeqId, n: nat, from: nat,
      perSession: bool)
    returns (ss': seq<State>, ls': seq<Label>, t: State)
    requires EndsIn(ss, ls, s, c) && s.fcm.pending + n <= MAX_PENDING_MESSAGES && c <= s.ctr && |ss| == |ls| + 1
    requires forall f :: f in Open(ss, ls, perSession) ==> |f| < from + 2
    ensures EndsIn(ss', ls', t, c) && Carried(s, t) && t.fcm.pending == s.fcm.pending + n && |ss'| == |ls'| + 1
    ensures Open(ss, ls, perSession) <= Open(ss', ls', perSession)
    ensures |Open(ss', ls', perSession)| == |Open(ss, ls, perSession)| + n
    ensures forall f :: f in Open(ss', ls', perSession) ==> f in Open(ss, ls, perSession) || |f| >= from + 2
    decreases n
  {
    hide EndsIn, Carried, After, Open, Handled;
    if n == 0 {
      ss', ls', t := ss, ls, s;
      CarriedSame(s);
    } else {
      var u := Open(ss, ls, perSession);
      var e := PlainUpload("", Name(from));
      var s1 := Uploaded(ss, ls, s, c, from, perSession);
      NewName(u, from);
      ss', ls' := GoOn(ss, ls, s, e, c, perSession);
      var mid := Open(ss', ls', perSession);
      ss', ls', t := Uploads(ss', ls', s1, c, n - 1, from + 1, perSession);
      CarriedTrans(s, s1, t);
    }
  }

  lemma Uploaded(ss: seq<State>, ls: seq<Label>, s: State, c: SeqId, from: nat, perSession: bool) returns (t: State)
    requires EndsIn(ss, ls, s, c) && !AtLimit(s.fcm) && c <= s.ctr && |ss| == |ls| + 1
    ensures var e := PlainUpload("", Name(from));
      && Boundary(s) && Allowed(s, e) && PlainEvent(s, e, c) && t == Handled(s, e)
      && t.fcm.pending == s.fcm.pending + 1 && Carried(s, t) && c <= t.ctr
      && After(Open(ss, ls, perSession), s, e, perSession) == Open(ss, ls, perSession) + {Name(from)}
  {
    InBetween(ss, ls, s, c);
    var e := PlainUpload("", Name(from));
    assert Name(from) != "c" by { assert |Name(from)| == from + 2; }
    t := Handled(s, e);
    SteadyBase(s);
    hide Base, Filed, Plain, Handled, Add, RowsStay, After, Open, Name, Steady, Step, Init, Carried, Proper;
    UploadEffect(s, e, Open(ss, ls, perSession), c, perSession);
    UploadCarries(s, e, c, perSession);
    Numbering(s, e);
  }

  // ---------------------------------------------------------------- past the limit by an ack

  /** All that matters here of an ack of a live message. */
  lemma AckEffect(s: State, e: Event, u: set<FcmId>, next: Option<SeqId>, perSession: bool)
    requires Base(s) && Boundary(s) && e.FcmAck? && FindByFcmId(s.fcm, e.fcmId).Some?
    requires Next(Remove(s.fcm, FindByFcmId(s.fcm, e.fcmId).value.id).0) == next && (next.Some? ==>
      next.value in s.rows)
    ensures var t := Handled(s, e);
      && t.fcm == Remove(s.fcm, FindByFcmId(s.fcm, e.fcmId).value.id).0 && RowsStay(s.rows, t.rows)
      && Grows(s, t) && ToFcm(News(s, t)) == ToSet(next)
      && After(u, s, e, perSession) == u - {e.fcmId} + if next.Some? then {s.rows[next.value].fcmId} else {}
  {
    BaseMgr(s, Fcm);
    hide Base, Handled, Remove, Next, FindByFcmId, ToFcm, News, Valid;
    EndingEffect(s, e);
    HandledRows(s, e);
    NamesOfOne(Handled(s, e).rows, if next.Some? then next.value else 0);
  }

  lemma AckIsFree(s: State, e: Event)
    requires Boundary(s) && e.FcmAck?
    ensures Allowed(s, e) && PlainEvent(s, e, 0)
  {
  }

  /** The manager that holds one sent message of group "g". */
  function GroupOfOne(m: Msg): Mgr {
    Mgr(map[m.id := m.(state := PendingAck)], map[m.fcmId := m.id], map["g" := {m.id}], 1)
  }

  lemma FirstOfGroup(m: Msg)
    requires m.group == "g"
    ensures CountUp(Put(Add(EMPTY, m), m.(state := PendingAck))) == GroupOfOne(m)
  {
    assert Add(EMPTY, m) == Mgr(map[m.id := m], map[m.fcmId := m.id], map["g" := {m.id}], 0);
  }

  /** Two messages of one group. */
  predicate InGroupG(m: Msg, n: Msg) {
    m.group == "g" == n.group && m.fcmId == "a" && n.fcmId == "b" && n.state == New && m.id < n.id
  }

  lemma SecondOfGroup(m: Msg, n: Msg)
    requires InGroupG(m, n)
    ensures var p := m.(state := PendingAck); var a := Add(GroupOfOne(m), n);
      m.id in a.messages && a.messages[m.id] == p && FindByFcmId(a, "a") == Some(p)
    ensures !GroupFree(GroupOfOne(m), "g")
  {
    assert m.id in GroupOfOne(m).messages;
  }

  lemma AfterFirst(m: Msg, n: Msg)
    requires InGroupG(m, n)
    ensures var r := Remove(Add(GroupOfOne(m), n), m.id).0;
      r.pending == 0 && r.messages == map[n.id := n] && Next(r) == Some(n.id)
  {
    var r := Remove(Add(GroupOfOne(m), n), m.id).0;
    assert r.messages == map[n.id := n];
    assert {m.id, n.id} - {m.id} == {n.id};
    assert r.groups["g"] == {n.id};
    assert SendableKeys(r) == {n.id};
  }

  /** Two uploads in one group: the first is sent, the second waits. */
  lemma TwoInGroup(perSession: bool) returns (ss: seq<State>, ls: seq<Label>, s: State, m: Msg, n: Msg)
    ensures EndsIn(ss, ls, s, 0) && |ss| == |ls| + 1 && Open(ss, ls, perSession) == {"a"} && InGroupG(m, n)
    ensures Events(ls) == [PlainUpload("g", "a"), PlainUpload("g", "b")]
    ensures s.fcm == Add(GroupOfOne(m), n) && 0 <= s.ctr && InTable(s.rows, n.id, "b")
  {
    hide EndsIn, Handled, Open, After, Add, RowsStay, GroupFree, Put, CountUp;
    var s0, e1, e2 := *, PlainUpload("g", "a"), PlainUpload("g", "b");
    ss, ls, s0 := Start(0, perSession);
    m := UploadMsg(s0, e1);
    assert GroupFree(EMPTY, "g") by { NothingInEmpty(); }
    UploadNext(ss, ls, s0, e1, perSession);
    FirstOfGroup(m);
    ss, ls := GoOn(ss, ls, s0, e1, 0, perSession);
    var s1 := Handled(s0, e1);
    n := UploadMsg(s1, e2);
    UploadNext(ss, ls, s1, e2, perSession);
    SecondOfGroup(m, n);
    assert {"a"} + {} == {"a"};
    ss, ls := GoOn(ss, ls, s1, e2, 0, perSession);
    s := Handled(s1, e2);
  }

  lemma NothingInEmpty()
    ensures forall g :: GroupFree(EMPTY, g)
  {
  }

  /** An upload at the end of a run without caps. */
  lemma UploadNext(ss: seq<State>, ls: seq<Label>, s: State, e: Event, perSession: bool)
    requires EndsIn(ss, ls, s, 0) && e.Upload? && e.session == "" && e.fcmId != "c" && 0 <= s.ctr && |ss| == |ls| + 1
    ensures Boundary(s) && Allowed(s, e) && PlainEvent(s, e, 0)
    ensures var m := UploadMsg(s, e); var a := Add(s.fcm, m); var t, u := Handled(s, e), Open(ss, ls, perSession);
      var ok := !AtLimit(s.fcm) && GroupFree(s.fcm, e.group);
      && t.fcm == (if ok then CountUp(Put(a, m.(state := PendingAck))) else a)
      && After(u, s, e, perSession) == u + (if ok then {e.fcmId} else {})
      && t.rows == s.rows[m.id := RowOf(m.(state := if ok then PendingAck else New))]
      && RowsStay(s.rows, t.rows) && t.ctr >= m.id && t.timers == s.timers
      && t.sent == (if ok then s.sent + [Sent(Fcm, m.id)] else s.sent)
      && (forall q :: q in s.fcm.messages ==> q < m.id)
  {
    hide Base, Filed, Handled, Add, RowsStay, After, Open, Steady, Step, Init, Proper, GroupFree, Put, CountUp;
    hide EndsIn, Plain;
    InBetween(ss, ls, s, 0);
    PlainPart(ss, ls, s, 0);
    SteadyBase(s);
    LiveIsNumbered(s);
    UploadEffect(s, e, Open(ss, ls, perSession), 0, perSession);
    RowIsNumbered(s, e);
  }

  lemma LiveIsNumbered(s: State)
    requires Base(s)
    ensures forall q :: q in s.fcm.messages ==> q < s.ctr + 1
  {
    BaseMgr(s, Fcm);
  }

  lemma RowIsNumbered(s: State, e: Event)
    requires Base(s) && Boundary(s) && Allowed(s, e) && s.ctr + 1 in Handled(s, e).rows
    ensures s.ctr + 1 <= Handled(s, e).ctr
  {
    hide Begin, Drain;
    BeginBase(s, e);
    DrainBase(Begin(s, e));
  }

  lemma {:induction false} DrainBase(s: State)
    requires Base(s)
    ensures Base(Drain(s))
    decreases Work(s)
  {
    if Boundary(s) {
      NothingToRun(s);
    } else {
      HandlersEnd(s);
      Ran(s, Exec(s));
      ExecBase(s);
      hide Drain, Work, Base, Exec;
      DrainBase(Exec(s));
    }
  }

  /** The ack of the first sends the second and leaves the counter at 0. */
  lemma CounterMissesOne(perSession: bool) returns (ss: seq<State>, ls: seq<Label>, s: State)
    ensures EndsIn(ss, ls, s, 0) && |ss| == |ls| + 1 && s.fcm.pending == 0 && Open(ss, ls, perSession) == {"b"}
      && 0 <= s.ctr
    ensures Events(ls) == [PlainUpload("g", "a"), PlainUpload("g", "b"), FcmAck("a", "")]
  {
    var s2, m, n;
    hide EndsIn, Handled, Add, Next, Remove, FindByFcmId, Open, After, RowsStay;
    ss, ls, s2, m, n := TwoInGroup(perSession);
    var e := FcmAck("a", "");
    InBetween(ss, ls, s2, 0);
    SteadyBase(s2);
    SecondOfGroup(m, n);
    AfterFirst(m, n);
    AckEffect(s2, e, Open(ss, ls, perSession), Some(n.id), perSession);
    AckIsFree(s2, e);
    Numbering(s2, e);
    ss, ls := GoOn(ss, ls, s2, e, 0, perSession);
    s := Handled(s2, e);
    assert {"a"} - {"a"} + {"b"} == {"b"};
  }

  /** 102 uploads and one ack leave 101 messages unanswered, with the counter at its limit. */
  lemma PastTheLimitByAck(perSession: bool) returns (ss: seq<State>, ls: seq<Label>)
    ensures IsRun(ss, ls) && AllProper(ss)
    ensures |Unanswered(ss, ls, |ls|, perSession)| == 101 && ss[|ls|].fcm.pending == MAX_PENDING_MESSAGES
  {
    hide EndsIn, Unanswered, Carried;
    var s, t;
    ss, ls, s := CounterMissesOne(perSession);
    ss, ls, t := Uploads(ss, ls, s, 0, 100, 0, perSession);
    InBetween(ss, ls, t, 0);
  }

  // ---------------------------------------------------------------- past the limit by a leftover timer

  /** The manager that holds one sent message without a group. */
  function OneSent(m: Msg): Mgr {
    Mgr(map[m.id := m.(state := PendingAck)], map[m.fcmId := m.id], map[], 1)
  }

  lemma FirstSent(m: Msg)
    requires m.group == ""
    ensures CountUp(Put(Add(EMPTY, m), m.(state := PendingAck))) == OneSent(m)
  {
    assert Add(EMPTY, m) == Mgr(map[m.id := m], map[m.fcmId := m.id], map[], 0);
  }

  function OneNacked(m: Msg): Mgr { Put(OneSent(m), Retried(m.(state := PendingAck))) }

  /** A retryable nack sets a timer and answers the message. */
  lemma NackEffect(s: State, m: Msg, u: set<FcmId>, perSession: bool)
    requires Boundary(s) && s.fcm == OneSent(m) && m.maxRetry == -1
    ensures var e := FcmNack(m.fcmId, true); var t := Handled(s, e);
      && Allowed(s, e) && PlainEvent(s, e, 0)
      && t == s.(fcm := OneNacked(m), timers := s.timers + multiset{Timer(Fcm, m.id)})
      && After(u, s, e, perSession) == u - {m.fcmId}
  {
    var e := FcmNack(m.fcmId, true);
    assert FindByFcmId(s.fcm, m.fcmId) == Some(m.(state := PendingAck));
    var t := Begin(s, e);
    assert t == s.(fcm := OneNacked(m), timers := s.timers + multiset{Timer(Fcm, m.id)});
    NothingToRun(t);
    NoNews(s, t);
    NamesOfOne(t.rows, 0);
  }

  lemma AckedAfterNack(m: Msg)
    requires m.group == ""
    ensures FindByFcmId(OneNacked(m), m.fcmId).Some? && FindByFcmId(OneNacked(m), m.fcmId).value.id == m.id
    ensures var r := Remove(OneNacked(m), m.id).0; r.messages == map[] && r.pending == 0 && Next(r) == None
  {
    var r := Remove(OneNacked(m), m.id).0;
    assert r.messages == map[];
    assert SendableKeys(r) == {};
  }

  /** An upload, its retryable nack, and its ack: nothing is live or unanswered, but a timer is left. */
  lemma LeftoverTimer(perSession: bool) returns (ss: seq<State>, ls: seq<Label>, s: State, q: SeqId)
    ensures EndsIn(ss, ls, s, 0) && |ss| == |ls| + 1 && Open(ss, ls, perSession) == {}
    ensures s.fcm.messages == map[] && s.fcm.pending == 0 && 0 <= s.ctr && q <= s.ctr
    ensures Timer(Fcm, q) in s.timers && InTable(s.rows, q, "a")
  {
    hide EndsIn, Handled, Add, Next, Remove, FindByFcmId, Open;
    hide After, RowsStay, Put, CountUp, GroupFree, OneSent, OneNacked;
    var s0;
    ss, ls, s0 := Start(0, perSession);
    var e1, e2, e3 := PlainUpload("", "a"), FcmNack("a", true), FcmAck("a", "");
    var m := UploadMsg(s0, e1);
    assert GroupFree(EMPTY, "") by { NothingInEmpty(); }
    UploadNext(ss, ls, s0, e1, perSession);
    FirstSent(m);
    ss, ls := GoOn(ss, ls, s0, e1, 0, perSession);
    var s1 := Handled(s0, e1);
    InBetween(ss, ls, s1, 0);
    NackEffect(s1, m, Open(ss, ls, perSession), perSession);
    ss, ls := GoOn(ss, ls, s1, e2, 0, perSession);
    var s2 := Handled(s1, e2);
    InBetween(ss, ls, s2, 0);
    SteadyBase(s2);
    AckedAfterNack(m);
    AckEffect(s2, e3, Open(ss, ls, perSession), None, perSession);
    AckIsFree(s2, e3);
    Numbering(s2, e3);
    AckTimers(ss, ls, s2, e3);
    ss, ls := GoOn(ss, ls, s2, e3, 0, perSession);
    s, q := Handled(s2, e3), m.id;
    RowIsCarried(s2.rows, s.rows, q);
    assert {"a"} - {"a"} - {"a"} + {} == {};
  }

  lemma AckTimers(ss: seq<State>, ls: seq<Label>, s: State, e: Event)
    requires EndsIn(ss, ls, s, 0) && e.FcmAck? && Allowed(s, e)
    ensures Handled(s, e).timers == s.timers
  {
    hide Drain, IsRun, Plain, FindByFcmId;
    PlainHandled(s, e, 0);
  }

  lemma RowIsCarried(a: map<SeqId, Row>, b: map<SeqId, Row>, q: SeqId)
    requires RowsStay(a, b) && q in a
    ensures InTable(b, q, a[q].fcmId) && b[q].group == a[q].group
  {
  }

  lemma TimerEffect(s: State, q: SeqId, u: set<FcmId>, perSession: bool)
    requires Boundary(s) && Timer(Fcm, q) in s.timers && q in s.rows
    ensures var e := TimerFires(Timer(Fcm, q));
      && Allowed(s, e) && PlainEvent(s, e, 0) && Handled(s, e).fcm == s.fcm
      && After(u, s, e, perSession) == u + {s.rows[q].fcmId}
  {
    var e := TimerFires(Timer(Fcm, q));
    NothingToRun(Begin(s, e));
    OneNews(s, Handled(s, e), Fcm, q);
    NamesOfOne(s.rows, q);
  }

  /** An upload that FCM nacks and then acks, 100 more, and the timer that the nack left: 101 unanswered, with no
      message reloaded, none let out by an ack, and the last one sent no longer live. */
  lemma PastTheLimitByTimer(perSession: bool) returns (ss: seq<State>, ls: seq<Label>, q: SeqId)
    ensures IsRun(ss, ls) && AllProper(ss) && |Unanswered(ss, ls, |ls|, perSession)| == 101
    ensures Events(ls) != [] && Events(ls)[|Events(ls)| - 1] == TimerFires(Timer(Fcm, q)) && q !in ss[|ls|].fcm.messages
  {
    hide EndsIn, Unanswered, Handled, After, RowsStay, Events;
    var s, t;
    ss, ls, s, q := LeftoverTimer(perSession);
    var u0 := Open(ss, ls, perSession);
    ss, ls, t := Uploads(ss, ls, s, 0, 100, 0, perSession);
    RowIsCarried(s.rows, t.rows, q);
    InBetween(ss, ls, t, 0);
    var u := Open(ss, ls, perSession);
    TimerEffect(t, q, u, perSession);
    OneMore(u, "a");
    ss, ls := GoOn(ss, ls, t, TimerFires(Timer(Fcm, q)), 0, perSession);
    InBetween(ss, ls, Handled(t, TimerFires(Timer(Fcm, q))), 0);
  }

  // ---------------------------------------------------------------- past the limit by a restart

  /** A crash between handlers. */
  lemma CrashOpen(ss: seq<State>, ls: seq<Label>, t: State, perSession: bool)
    requires |ss| == |ls| + 1
    ensures Open(ss + [t], ls + [Crash], perSession) == Open(ss, ls, perSession) && Events(ls + [Crash]) == Events(ls)
  {
    assert (ss + [t])[..|ss|] == ss && (ls + [Crash])[..|ls|] == ls;
    SamePrefix(ss, ls, ss + [t], ls + [Crash], |ls|, perSession);
    EventsOne(ls, Crash);
  }

  lemma PlainRestart(ss: seq<State>, ls: seq<Label>, s: State, perSession: bool)
    returns (ss': seq<State>, ls': seq<Label>, t: State)
    requires EndsIn(ss, ls, s, 0) && |ss| == |ls| + 1 && forall q :: q in s.rows ==> q > 0 && s.rows[q].fcmId != "c"
    ensures EndsIn(ss', ls', t, 0) && Restarted(s, t) && |ss'| == |ls'| + 1
    ensures Open(ss', ls', perSession) == Open(ss, ls, perSession) && Events(ls') == Events(ls)
  {
    t := RestartPossible(s);
    LoadedIsLoaded(s.rows, FCM);
    assert t.bals == map[] by { assert t.bals.Keys == {}; }
    forall q | q in t.fcm.messages ensures t.fcm.messages[q].id == q && PlainMsg(t.fcm.messages[q], 0) {
      assert q in PendingFor(s.rows, FCM) && FromRow(t.fcm.messages[q], q, s.rows[q]);
    }
    assert Plain(t, 0) && Boundary(t);
    PlainIsProper(t, 0);
    hide Plain, Proper, Restarted, Loaded, Step, Init, Open, Events;
    ss', ls' := CrashExtends(ss, ls, t);
    CrashOpen(ss, ls, t, perSession);
  }

  /** What was live and downstream is so again after a restart. */
  lemma StillThere(s: State, t: State, q: SeqId)
    requires Steady(s) && Boundary(s) && Restarted(s, t) && q in s.fcm.messages
    ensures q in t.fcm.messages && t.fcm.messages[q].kind == s.fcm.messages[q].kind && q in s.rows
  {
    assert Live(s, Fcm, q);
    LiveIsRow(s, Fcm, q);
    hide Steady, Inv, Base, Proper;
    assert LoadedFrom(t.rows, FCM, t.fcm);
    assert q in PendingFor(t.rows, FCM);
    assert FromRow(t.fcm.messages[q], q, t.rows[q]);
  }

  /** Only uploads so far: every row is a live downstream message, and n of them have different names. */
  ghost predicate OnlyUploads(s: State, n: nat) {
    && (forall q :: q in s.rows ==> 0 < q && s.rows[q].fcmId != "c" && |s.rows[q].fcmId| < n + 2)
    && (forall q :: q in s.fcm.messages ==> s.fcm.messages[q].kind == Downstream)
    && |Names(s.rows, s.fcm.messages.Keys)| == n && 0 <= s.ctr
  }

  predicate AllUploads(es: seq<Event>) { forall i :: 0 <= i < |es| ==> es[i].Upload? }

  lemma NamesGrow(rows: map<SeqId, Row>, id: SeqId, r: Row, keys: set<SeqId>)
    requires id !in rows && keys <= rows.Keys
    ensures Names(rows[id := r], keys + {id}) == Names(rows, keys) + {r.fcmId}
  {
    var more := rows[id := r];
    forall q | q in keys ensures q in more && more[q] == rows[q] { assert q in rows.Keys; }
    assert Names(more, keys) == Names(rows, keys);
    NamesSplit(more, keys, {id});
    NamesOfOne(more, id);
  }

  lemma GrownNames(s: State, t: State, r: Row, n: nat)
    requires OnlyUploads(s, n) && t.rows == s.rows[s.ctr + 1 := r] && r.fcmId == Name(n) && s.ctr <= t.ctr
    requires t.fcm.messages.Keys == s.fcm.messages.Keys + {s.ctr + 1} && s.fcm.messages.Keys <= s.rows.Keys
    requires s.ctr + 1 !in s.rows && forall q :: q in t.fcm.messages ==> t.fcm.messages[q].kind == Downstream
    ensures OnlyUploads(t, n + 1)
  {
    var id, keys := s.ctr + 1, s.fcm.messages.Keys;
    assert |Name(n)| == n + 2;
    NamesGrow(s.rows, id, r, keys);
    NamesAreShort(s.rows, keys, n);
    hide Names, Name;
    NewName(Names(s.rows, keys), n);
  }

  lemma NamesAreShort(rows: map<SeqId, Row>, keys: set<SeqId>, n: nat)
    requires forall q :: q in rows ==> |rows[q].fcmId| < n + 2
    ensures forall f :: f in Names(rows, keys) ==> |f| < n + 2
  {
  }

  lemma OneMoreUpload(ss: seq<State>, ls: seq<Label>, s: State, n: nat, perSession: bool)
    requires EndsIn(ss, ls, s, 0) && OnlyUploads(s, n) && |ss| == |ls| + 1
    ensures var e := PlainUpload("", Name(n));
      Boundary(s) && Allowed(s, e) && PlainEvent(s, e, 0) && OnlyUploads(Handled(s, e), n + 1)
  {
    var e := PlainUpload("", Name(n));
    assert |Name(n)| == n + 2 && 0 <= s.ctr;
    hide EndsIn, Handled, Open, After, Steady, Base, Add, Put, CountUp, GroupFree, RowsStay, Name, Step, Init, Filed;
    InBetween(ss, ls, s, 0);
    SteadyBase(s);
    BaseFresh(s);
    FiledKeys(s);
    UploadKeys(s, e);
    hide OnlyUploads;
    UploadNext(ss, ls, s, e, perSession);
    GrownNames(s, Handled(s, e), Handled(s, e).rows[s.ctr + 1], n);
  }

  lemma FiledKeys(s: State)
    requires Filed(s)
    ensures s.fcm.messages.Keys <= s.rows.Keys
  {
    forall q | q in s.fcm.messages.Keys ensures q in s.rows.Keys { assert InTable(s.rows, q, s.fcm.messages[q].fcmId); }
  }

  lemma BaseFresh(s: State)
    requires Base(s)
    ensures s.ctr + 1 !in s.rows
  {
  }

  lemma UploadKeys(s: State, e: Event)
    requires Base(s) && Boundary(s) && Allowed(s, e) && e.Upload?
    requires forall q :: q in s.fcm.messages ==> s.fcm.messages[q].kind == Downstream
    ensures var t := Handled(s, e);
      && t.fcm.messages.Keys == s.fcm.messages.Keys + {s.ctr + 1}
      && forall q :: q in t.fcm.messages ==> t.fcm.messages[q].kind == Downstream
  {
    BaseNextIsFree(s);
    UploadExact(s, e);
    hide Begin, Drain, Base, CanSend;
  }

  lemma {:induction false} QuietUploads(ss: seq<State>, ls: seq<Label>, s: State, n: nat, more: nat, perSession: bool)
    returns (ss': seq<State>, ls': seq<Label>, t: State)
    requires EndsIn(ss, ls, s, 0) && |ss| == |ls| + 1 && OnlyUploads(s, n) && AllUploads(Events(ls))
    ensures EndsIn(ss', ls', t, 0) && |ss'| == |ls'| + 1 && OnlyUploads(t, n + more) && AllUploads(Events(ls'))
    decreases more
  {
    hide EndsIn, OnlyUploads, Handled, Open, After, Events;
    if more == 0 {
      ss', ls', t := ss, ls, s;
    } else {
      OneMoreUpload(ss, ls, s, n, perSession);
      var e := PlainUpload("", Name(n));
      ss', ls' := GoOn(ss, ls, s, e, 0, perSession);
      ss', ls', t := QuietUploads(ss', ls', Handled(s, e), n + 1, more - 1, perSession);
    }
  }

  /** All that was live is sent. */
  lemma ManyReloaded(s: State, t: State, u: set<FcmId>, n: nat, perSession: bool)
    requires Steady(s) && Boundary(s) && Restarted(s, t) && OnlyUploads(s, n)
    ensures Boundary(t) && |After(u, t, FcmUp, perSession)| >= n
  {
    assert Started(t) && t.rows == s.rows;
    FirstSessionSendsAll(t, u, perSession);
    hide Steady, After, Started, Answered;
    var down := set q | q in t.fcm.messages && t.fcm.messages[q].kind == Downstream;
    forall q | q in s.fcm.messages.Keys ensures q in down { StillThere(s, t, q); }
    hide Restarted;
    assert Names(s.rows, s.fcm.messages.Keys) <= Names(s.rows, down);
    SubsetSize(Names(s.rows, s.fcm.messages.Keys), After(u, t, FcmUp, perSession));
  }

  /** 101 uploads, a crash and the next FCM session leave more than 100 messages unanswered, without any ack. */
  lemma PastTheLimitByRestart(perSession: bool) returns (ss: seq<State>, ls: seq<Label>)
    ensures IsRun(ss, ls) && |Unanswered(ss, ls, |ls|, perSession)| > MAX_PENDING_MESSAGES
    ensures forall e :: e in Events(ls) ==> e.Upload? || e == FcmUp
  {
    var s0, s, t;
    hide EndsIn, Handled, After, Unanswered, Events, Restarted, Step, Init;
    ss, ls, s0 := Start(0, perSession);
    assert Names(map[], {}) == {} && s0.fcm.messages.Keys == {};
    assert OnlyUploads(s0, 0) && AllUploads(Events(ls));
    ss, ls, s := QuietUploads(ss, ls, s0, 0, 101, perSession);
    InBetween(ss, ls, s, 0);
    var ss1, ls1;
    ss1, ls1, t := PlainRestart(ss, ls, s, perSession);
    InBetween(ss1, ls1, t, 0);
    ManyReloaded(s, t, Open(ss1, ls1, perSession), 101, perSession);
    ss, ls := ExtendRun(ss1, ls1, FcmUp);
    ExtendedOpen(ss1, ls1, ss, ls, FcmUp, perSession);
  }

  // ---------------------------------------------------------------- sent twice

  /** A message let out by one ack is let out again by the next. */
  function Three(m: Msg, n: Msg, d: Msg): Mgr {
    Mgr(map[m.id := m.(state := PendingAck), n.id := n, d.id := d.(state := PendingAck)],
      map["a" := m.id, "b" := n.id, "d" := d.id], map["g" := {m.id, n.id}], 2)
  }

  lemma PairIs(m: Msg, n: Msg)
    requires InGroupG(m, n)
    ensures var a := Add(GroupOfOne(m), n);
      && a.messages == map[m.id := m.(state := PendingAck), n.id := n] && a.pending == 1
      && a.index == map["a" := m.id, "b" := n.id] && a.groups == map["g" := {m.id, n.id}]
  {
    assert {m.id} + {n.id} == {m.id, n.id};
  }

  lemma ThirdUpload(m: Msg, n: Msg, d: Msg)
    requires InGroupG(m, n) && n.id < d.id && d.group == "" && d.fcmId == "d"
    ensures CountUp(Put(Add(Add(GroupOfOne(m), n), d), d.(state := PendingAck))) == Three(m, n, d)
    ensures !AtLimit(Add(GroupOfOne(m), n)) && GroupFree(Add(GroupOfOne(m), n), "")
  {
    PairIs(m, n);
    var a := Add(GroupOfOne(m), n);
    hide GroupOfOne;
    assert Put(Add(a, d), d.(state := PendingAck)).messages == Three(m, n, d).messages;
    assert Add(a, d).index == Three(m, n, d).index;
  }

  /** After the ack of the first. */
  function Two(n: Msg, d: Msg): Mgr {
    Mgr(map[n.id := n, d.id := d.(state := PendingAck)], map["b" := n.id, "d" := d.id], map["g" := {n.id}], 1)
  }

  lemma FirstFound(m: Msg, n: Msg, d: Msg)
    requires m.id < n.id < d.id && m.group == "g" && m.fcmId == "a"
    ensures var x := Three(m, n, d);
      && m.id in x.messages && x.messages[m.id] == m.(state := PendingAck) && x.messages - {m.id} == Two(n, d).messages
      && FindByFcmId(x, "a") == Some(m.(state := PendingAck)) && x.index - {"a"} == Two(n, d).index
  {
  }

  lemma FirstAcked(m: Msg, n: Msg, d: Msg)
    requires m.id < n.id < d.id && m.group == "g" && m.fcmId == "a"
    ensures FindByFcmId(Three(m, n, d), "a").Some? && FindByFcmId(Three(m, n, d), "a").value.id == m.id
    ensures Remove(Three(m, n, d), m.id).0 == Two(n, d)
  {
    FirstFound(m, n, d);
    assert {m.id, n.id} - {m.id} == {n.id};
    assert RemoveFromGroups(Three(m, n, d).groups, "g", m.id) == Two(n, d).groups;
    hide FindByFcmId;
  }

  lemma NextOfTwo(n: Msg, d: Msg)
    requires n.group == "g" && n.state == New && n.id < d.id && d.group == "" && d.fcmId == "d"
    ensures Next(Two(n, d)) == Some(n.id)
    ensures FindByFcmId(Two(n, d), "d").Some? && FindByFcmId(Two(n, d), "d").value.id == d.id
    ensures Next(Remove(Two(n, d), d.id).0) == Some(n.id)
  {
    assert SendableKeys(Two(n, d)) == {n.id};
    assert SendableKeys(Remove(Two(n, d), d.id).0) == {n.id};
  }

  lemma NewsAreSent(s: State, t: State, q: SeqId)
    requires Grows(s, t) && q in ToFcm(News(s, t))
    ensures WasSent(t, q)
  {
    assert Sent(Fcm, q) in t.sent[|s.sent|..];
  }

  /** Three uploads and two acks, with no reconnect and no timer: the message of the second upload, let out by the
      first ack, is sent again by the second. */
  lemma SentTwice(perSession: bool) returns (ss: seq<State>, ls: seq<Label>, s: State, q: SeqId)
    ensures EndsIn(ss, ls, s, 0) && Boundary(s) && WasSent(s, q)
    ensures Events(ls) == [PlainUpload("g", "a"), PlainUpload("g", "b"), PlainUpload("", "d"), FcmAck("a", "")]
    ensures Grows(s, Handled(s, FcmAck("d", ""))) && q in ToFcm(News(s, Handled(s, FcmAck("d", ""))))
  {
    var s2, m, n;
    hide EndsIn, Handled, Add, Next, Remove, FindByFcmId, Open, After;
    hide RowsStay, Put, CountUp, GroupFree, ToFcm, News, Three, Two, WasSent;
    ss, ls, s2, m, n := TwoInGroup(perSession);
    SecondOfGroup(m, n);
    assert n.id in s2.fcm.messages by { LastAdded(GroupOfOne(m), n); }
    var e3, e4, e5 := PlainUpload("", "d"), FcmAck("a", ""), FcmAck("d", "");
    var d := UploadMsg(s2, e3);
    UploadNext(ss, ls, s2, e3, perSession);
    ThirdUpload(m, n, d);
    RowIsCarried(s2.rows, Handled(s2, e3).rows, n.id);
    ss, ls := GoOn(ss, ls, s2, e3, 0, perSession);
    var s3 := Handled(s2, e3);
    InBetween(ss, ls, s3, 0);
    SteadyBase(s3);
    FirstAcked(m, n, d);
    NextOfTwo(n, d);
    AckEffect(s3, e4, {}, Some(n.id), perSession);
    RowIsCarried(s3.rows, Handled(s3, e4).rows, n.id);
    AckIsFree(s3, e4);
    ss, ls := GoOn(ss, ls, s3, e4, 0, perSession);
    s, q := Handled(s3, e4), n.id;
    NewsAreSent(s3, s, q);
    InBetween(ss, ls, s, 0);
    SteadyBase(s);
    AckEffect(s, e5, {}, Some(n.id), perSession);
  }

  lemma LastAdded(m: Mgr, msg: Msg)
    ensures msg.id in Add(m, msg).messages
  {
  }

  // ---------------------------------------------------------------- a sweep that erases

  function Capped(m: Msg): Msg { m.(nRetry := 0, maxRetry := 0) }

  /** Nobody sets the retry fields of a reloaded message, so they may come out as 0. */
  lemma CappedLoad(rows: map<SeqId, Row>, m: Mgr)
    requires LoadedFrom(rows, FCM, m) && 1 in m.messages
    ensures m.messages[1].id == 1 && LoadedFrom(rows, FCM, Put(m, Capped(m.messages[1])))
    ensures rows.Keys == {1} && rows[1].fcmId == "c" ==> forall q :: q in m.messages ==>
      q == 1 && m.messages[q].fcmId == "c"
  {
    assert FromRow(m.messages[1], 1, rows[1]);
    forall q | q in m.messages ensures q in rows.Keys && FromRow(m.messages[q], q, rows[q]) {
      assert q in PendingFor(rows, FCM);
    }
  }

  lemma CappedState(s: State) returns (t: State)
    requires Steady(s) && Boundary(s) && s.bals == map[] && 1 in s.fcm.messages && s.fcm.messages[1].kind == Downstream
    requires s.rows.Keys == {1} && s.rows[1].fcmId == "c"
    ensures Restarted(s, t) && Plain(t, 1) && Boundary(t) && t.ctr == 1 && t.fcm.pending == 0
    ensures 1 in t.fcm.messages && t.fcm.messages[1].kind == Downstream && Spent(t.fcm.messages[1])
  {
    var r := RestartPossible(s);
    StillThere(s, r, 1);
    hide Steady, Loaded;
    assert LoadedFrom(s.rows, FCM, r.fcm);
    CappedLoad(s.rows, r.fcm);
    hide LoadedFrom;
    t := r.(fcm := Put(r.fcm, Capped(r.fcm.messages[1])));
    assert t.bals == map[] by { assert t.bals.Keys == {}; }
    assert t.ctr in s.rows.Keys;
    assert Put(r.fcm, Capped(r.fcm.messages[1])).pending == 0 by { LoadedCountsNothing(s.rows, r.fcm); }
  }

  lemma LoadedCountsNothing(rows: map<SeqId, Row>, m: Mgr)
    requires LoadedFrom(rows, FCM, m)
    ensures m.pending == 0
  {
  }

  /** A restart in which the retry cap of message 1 comes out as 0. */
  lemma CappedRestart(ss: seq<State>, ls: seq<Label>, s: State, perSession: bool)
    returns (ss': seq<State>, ls': seq<Label>, t: State)
    requires EndsIn(ss, ls, s, 1) && |ss| == |ls| + 1 && 1 in s.fcm.messages && s.fcm.messages[1].kind == Downstream
    requires s.rows.Keys == {1} && s.rows[1].fcmId == "c"
    ensures EndsIn(ss', ls', t, 1) && |ss'| == |ls'| + 1 && Open(ss', ls', perSession) == Open(ss, ls, perSession)
    ensures 1 in t.fcm.messages && t.fcm.pending == 0 && 1 <= t.ctr && Events(ls') == Events(ls)
    ensures t.fcm.messages[1].kind == Downstream && Spent(t.fcm.messages[1])
  {
    InBetween(ss, ls, s, 1);
    assert s.bals == map[];
    hide Plain, Proper, Restarted, Step, Init, Open, Events, Steady, Filed, Spent;
    t := CappedState(s);
    PlainIsProper(t, 1);
    ss', ls' := CrashExtends(ss, ls, t);
    CrashOpen(ss, ls, t, perSession);
  }

  /** The upload of message 1. */
  lemma FirstUpload(perSession: bool) returns (ss: seq<State>, ls: seq<Label>, s: State)
    ensures EndsIn(ss, ls, s, 1) && |ss| == |ls| + 1 && Open(ss, ls, perSession) == {"c"}
    ensures 1 in s.fcm.messages && s.fcm.messages[1].kind == Downstream && s.rows.Keys == {1} && s.rows[1].fcmId == "c"
  {
    hide EndsIn, Handled, Open, After, RowsStay, Steady, Base, Filed, Plain, Step, Init, Proper, GroupFree;
    var s0, e := *, PlainUpload("", "c");
    ss, ls, s0 := Start(1, perSession);
    InBetween(ss, ls, s0, 1);
    SteadyBase(s0);
    assert Allowed(s0, e) && PlainEvent(s0, e, 1);
    PlainPart(ss, ls, s0, 1);
    assert GroupFree(EMPTY, "") by { NothingInEmpty(); }
    UploadEffect(s0, e, {}, 1, perSession);
    ss, ls := GoOn(ss, ls, s0, e, 1, perSession);
    s := Handled(s0, e);
    assert s.rows.Keys == {1};
  }

  /** An upload, a crash, 100 uploads and a new session: the sweep erases the reloaded message from the map it
      iterates over. */
  lemma ErasingRun(perSession: bool) returns (ss: seq<State>, ls: seq<Label>, s: State)
    ensures EndsIn(ss, ls, s, 1) && Boundary(s) && Erases(s, FcmUp)
    ensures Handled(s, FcmUp).fcm.messages.Keys != s.fcm.messages.Keys
  {
    hide EndsIn, Handled, Open, RowsStay, Spent, Erasing, NoneSpent, Steady, Step, Init, Filed;
    var s1, t;
    ss, ls, s1 := FirstUpload(perSession);
    ss, ls, t := CappedRestart(ss, ls, s1, perSession);
    ss, ls, s := Uploads(ss, ls, t, 1, 100, 0, perSession);
    InBetween(ss, ls, s, 1);
    SomeSpent(s.fcm, 1);
    FcmErasing(s.fcm);
    SweepErasesExactly(s, Fcm);
  }

  lemma SomeSpent(m: Mgr, q: SeqId)
    requires Visits(m, Fcm, q) && Spent(m.messages[q])
    ensures !NoneSpent(m, Fcm)
  {
  }

  lemma PlainPart(ss: seq<State>, ls: seq<Label>, s: State, c: SeqId)
    requires EndsIn(ss, ls, s, c)
    ensures Plain(s, c)
  {
  }

  // ---------------------------------------------------------------- overtaken after a restart

  lemma StartedKnowsGroups(t: State)
    requires Started(t)
    ensures GroupsKnown(t) && (forall q :: q in t.fcm.messages ==> !Recent(t, q)) && t.fcm.pending == 0 && t.sent == []
  {
    assert LoadedFrom(t.rows, FCM, t.fcm);
    forall q | q in t.fcm.messages ensures !Recent(t, q) && t.fcm.messages[q].group == "" {
      assert FromRow(t.fcm.messages[q], q, t.rows[q]);
      assert q in PendingFor(t.rows, FCM);
    }
  }

  /** A grouped upload and a crash. */
  lemma GroupedThenCrash() returns (ss: seq<State>, ls: seq<Label>, t: State, p: SeqId)
    ensures EndsIn(ss, ls, t, 0) && |ss| == |ls| + 1
    ensures GroupsKnown(t) && t.fcm.pending == 0 && t.sent == [] && 0 <= t.ctr
    ensures p in t.fcm.messages && p in t.rows && t.rows[p].group == "g"
    ensures forall q :: q in t.fcm.messages ==> !Recent(t, q)
  {
    var s0;
    hide EndsIn, Handled, Open, After, RowsStay, GroupFree, Add, Put, CountUp, Steady, Step, Init;
    hide Restarted, GroupsKnown;
    ss, ls, s0 := Start(0, false);
    var e := PlainUpload("g", "a");
    UploadNext(ss, ls, s0, e, false);
    UploadedIsLive(ss, ls, s0, e);
    p := s0.ctr + 1;
    ss, ls := GoOn(ss, ls, s0, e, 0, false);
    var s1 := Handled(s0, e);
    InBetween(ss, ls, s1, 0);
    assert s1.rows.Keys == {p};
    ss, ls, t := PlainRestart(ss, ls, s1, false);
    StillThere(s1, t, p);
    AfterCrash(s1, t);
  }

  /** A grouped upload, a crash, and an upload in the same group: the second message is sent while the first,
      older and of the same stored group, is live. */
  lemma OvertakingRun() returns (ss: seq<State>, ls: seq<Label>, p: SeqId, q: SeqId)
    ensures IsRun(ss, ls) && AllProper(ss)
    ensures var u := ss[|ls|];
      && Boundary(u) && p < q && p in u.fcm.messages && WasSent(u, q) && !WasSent(u, p)
      && p in u.rows && q in u.rows && u.rows[p].group == u.rows[q].group == "g"
  {
    var t;
    hide EndsIn, Handled, Open, After, RowsStay, GroupFree, Add, Put, CountUp, Steady, Step, Init, GroupsKnown, WasSent;
    ss, ls, t, p := GroupedThenCrash();
    var e := PlainUpload("g", "b");
    InBetween(ss, ls, t, 0);
    q := t.ctr + 1;
    UploadNext(ss, ls, t, e, false);
    Overtaken(t, e, p);
    RowIsCarried(t.rows, Handled(t, e).rows, p);
    ss, ls := GoOn(ss, ls, t, e, 0, false);
    InBetween(ss, ls, Handled(t, e), 0);
  }

  lemma UploadedIsLive(ss: seq<State>, ls: seq<Label>, s: State, e: Event)
    requires EndsIn(ss, ls, s, 0) && Allowed(s, e) && e.Upload? && Boundary(s)
    ensures s.ctr + 1 in Handled(s, e).fcm.messages
  {
    hide EndsIn, Begin, Drain, Base, Steady, Add, CanSend, Step, Init;
    InBetween(ss, ls, s, 0);
    SteadyBase(s);
    BaseNextIsFree(s);
    UploadExact(s, e);
    assert s.ctr + 1 in Handled(s, e).fcm.messages.Keys;
  }

  lemma AfterCrash(s: State, t: State)
    requires Restarted(s, t)
    ensures t.rows == s.rows && GroupsKnown(t) && (forall q :: q in t.fcm.messages ==> !Recent(t, q))
    ensures t.fcm.pending == 0 && t.sent == [] && (forall q :: q in t.rows ==> q <= t.ctr)
  {
    StartedKnowsGroups(t);
  }

  lemma Overtaken(t: State, e: Event, p: SeqId)
    requires Steady(t) && GroupsKnown(t) && Boundary(t) && Allowed(t, e) && e.Upload? && t.sent == []
    requires t.fcm.pending == 0 && p in t.fcm.messages && p in t.rows && t.rows[p].group == e.group != ""
    requires forall r :: r in t.fcm.messages ==> !Recent(t, r)
    ensures var u := Handled(t, e); WasSent(u, t.ctr + 1) && p in u.fcm.messages && p < t.ctr + 1 && !WasSent(u, p)
  {
    assert Inv(t);
    hide Begin, Drain, Inv, GroupsKnown, Base, Proper;
    ReloadedGroupIsOvertaken(t, e, p);
    InvNextIsFree(t);
    UploadExact(t, e);
  }
}
