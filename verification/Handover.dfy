/** FCM connection handles: reconnecting with backoff, and the handover when FCM drains a connection
    (fcmconnection.cpp; application.cpp: createFcmHandle, setupFcmHandle, handleFcmConnectionDrainingStarted). */
module Handover {
  import Backoff

  datatype Phase =
    | Connecting      // connectToHostEncrypted is under way
    | Connected       // the socket is encrypted, the handshake is under way
    | Authenticated
    | Waiting         // a reconnect timer is set
    | Closed          // drained and disconnected: nothing is scheduled

  /** A handle; `losses` counts the disconnects since the last session. */
  datatype Handle = Handle(phase: Phase, draining: bool, expBoff: Backoff.State, losses: nat)

  const NEW_HANDLE: Handle := Handle(Connecting, false, Backoff.Fresh(Backoff.NO_MAX_RETRY), 0)

  /** The handles by id, the ids that receive sendMessage(), and how often a handle that was already
      draining was told to drain. */
  datatype Conns = Conns(handles: map<nat, Handle>, count: nat, subscribed: set<nat>, repeats: nat)

  datatype Event =
    | Encrypted(id: nat)
    | Jid(id: nat)
    | Draining(id: nat)
    | OtherControl(id: nat)
    | Disconnected(id: nat, delta: int)
    | Timer(id: nat)

  predicate Open(p: Phase) { p == Connected || p == Authenticated }

  /** What can happen to a handle in its phase. */
  predicate Enabled(c: Conns, e: Event) {
    && e.id in c.handles
    && var p := c.handles[e.id].phase;
      match e
      case Encrypted(_) => p == Connecting
      case Jid(_) => Open(p)
      case Draining(_) => Open(p)
      case OtherControl(_) => Open(p)
      case Disconnected(_, d) => (p == Connecting || Open(p)) && Backoff.IsDelta(d)
      case Timer(_) => p == Waiting
  }

  /** createFcmHandle and setupFcmHandle: a new id, greater than all others, subscribed. */
  function Created(c: Conns): Conns {
    c.(handles := c.handles[c.count + 1 := NEW_HANDLE], count := c.count + 1,
      subscribed := c.subscribed + {c.count + 1})
  }

  /** The newest handle is the last in the map; it loses its subscription, whichever handle is draining. */
  function DrainingStarted(c: Conns): Conns {
    Created(c.(subscribed := c.subscribed - {c.count}))
  }

  function Update(c: Conns, id: nat, h: Handle): Conns { c.(handles := c.handles[id := h]) }

  function Step(c: Conns, e: Event): Conns
    requires Enabled(c, e)
  {
    var h := c.handles[e.id];
    match e
    case Encrypted(id) => Update(c, id, h.(phase := Connected))
    case Jid(id) => Update(c, id, h.(phase := Authenticated, expBoff := Backoff.AfterReset(h.expBoff), losses := 0))
    case Draining(id) =>
      DrainingStarted(Update(c, id, h.(draining := true)).(repeats := if h.draining then c.repeats + 1 else c.repeats))
    case OtherControl(_) => c
    case Disconnected(id, _) =>
      if h.draining then Update(c, id, h.(phase := Closed))
      else Update(c, id, h.(phase := Waiting, expBoff := Backoff.AfterNext(h.expBoff), losses := h.losses + 1))
    case Timer(id) => Update(c, id, h.(phase := Connecting))
  }

  /** The application starts with one handle. */
  const START: Conns := Created(Conns(map[], 0, {}, 0))

  ghost predicate IsRun(cs: seq<Conns>, es: seq<Event>) {
    && |cs| == |es| + 1 && cs[0] == START
    && forall i {:trigger es[i]} :: 0 <= i < |es| ==> Enabled(cs[i], es[i]) && cs[i + 1] == Step(cs[i], es[i])
  }

  // ---------------------------------------------------------------- the invariant

  ghost function Undrained(c: Conns): set<nat> { set id | id in c.handles && !c.handles[id].draining }

  ghost predicate HandleOk(h: Handle) {
    && (h.phase == Connecting || h.phase == Waiting ==> !h.draining)
    && (h.phase == Closed ==> h.draining)
    && h.expBoff.maxRetry == Backoff.NO_MAX_RETRY && Backoff.Sane(h.expBoff) && h.expBoff.seedVal == h.losses + 2
  }

  ghost predicate Inv(c: Conns) {
    && c.count >= 1
    && (forall id :: id in c.handles <==> 1 <= id <= c.count)
    && c.subscribed == {c.count}
    && !c.handles[c.count].draining
    && (forall id :: id in c.handles ==> HandleOk(c.handles[id]))
    && |Undrained(c)| == 1 + c.repeats
  }

  lemma StartInv()
    ensures Inv(START)
  {
    assert Undrained(START) == {1};
  }

  /** A handle changes and stays as drained as it was. */
  lemma UpdateKeeps(c: Conns, id: nat, h: Handle)
    requires Inv(c) && id in c.handles && HandleOk(h) && h.draining == c.handles[id].draining
    ensures Inv(Update(c, id, h))
  {
    assert Undrained(Update(c, id, h)) == Undrained(c);
  }

  /** Draining moves one handle out of the undrained ones and a new one in; a repeat only adds one. */
  lemma DrainingKeeps(c: Conns, id: nat)
    requires Inv(c) && Enabled(c, Draining(id))
    ensures Inv(Step(c, Draining(id)))
  {
    var d := Step(c, Draining(id));
    var h := c.handles[id];
    assert Undrained(d) == Undrained(c) - {id} + {c.count + 1};
    assert c.count + 1 !in Undrained(c);
    assert h.draining <==> id !in Undrained(c);
    forall i | i in d.handles ensures HandleOk(d.handles[i]) {
      if i == c.count + 1 { } else if i != id { assert i in c.handles; }
    }
  }

  lemma StepInv(c: Conns, e: Event)
    requires Inv(c) && Enabled(c, e)
    ensures Inv(Step(c, e))
  {
    hide Inv, Update;
    if e.Draining? {
      DrainingKeeps(c, e.id);
    } else if !e.OtherControl? {
      InvHandle(c, e.id);
      var h := c.handles[e.id];
      match e {
        case Encrypted(id) => UpdateKeeps(c, id, h.(phase := Connected));
        case Jid(id) => UpdateKeeps(c, id,
          h.(phase := Authenticated, expBoff := Backoff.AfterReset(h.expBoff), losses := 0));
        case Disconnected(id, _) =>
          if h.draining { UpdateKeeps(c, id, h.(phase := Closed)); }
          else { UpdateKeeps(c, id,
            h.(phase := Waiting, expBoff := Backoff.AfterNext(h.expBoff), losses := h.losses + 1)); }
        case Timer(id) => UpdateKeeps(c, id, h.(phase := Connecting));
        case Draining(_) =>
        case OtherControl(_) =>
      }
    }
  }

  lemma InvHandle(c: Conns, id: nat)
    requires Inv(c) && id in c.handles
    ensures HandleOk(c.handles[id])
  {
  }

  lemma {:induction false} RunInv(cs: seq<Conns>, es: seq<Event>, n: nat)
    requires IsRun(cs, es) && n <= |es|
    ensures Inv(cs[n])
    decreases n
  {
    hide Inv;
    if n == 0 {
      StartInv();
    } else {
      RunInv(cs, es, n - 1);
      assert Enabled(cs[n - 1], es[n - 1]) && cs[n] == Step(cs[n - 1], es[n - 1]);
      StepInv(cs[n - 1], es[n - 1]);
    }
  }

  // ---------------------------------------------------------------- what every run keeps

  /** At every moment exactly one handle receives what is sent: the newest, and it is not draining. */
  lemma ExactlyOneSubscriber(cs: seq<Conns>, es: seq<Event>, n: nat)
    requires IsRun(cs, es) && n <= |es|
    ensures var c := cs[n];
      && c.subscribed == {c.count} && c.count in c.handles && !c.handles[c.count].draining
      && forall id :: id in c.handles ==> id <= c.count
  {
    RunInv(cs, es, n);
  }

  lemma {:induction false} DrainedForever(cs: seq<Conns>, es: seq<Event>, i: nat, j: nat, id: nat)
    requires IsRun(cs, es) && i <= j <= |es|
    ensures cs[i].count <= cs[j].count
    ensures id in cs[i].handles ==> id in cs[j].handles && (cs[i].handles[id].draining ==> cs[j].handles[id].draining)
    decreases j - i
  {
    if i < j {
      DrainedForever(cs, es, i, j - 1, id);
      RunInv(cs, es, j - 1);
      assert Enabled(cs[j - 1], es[j - 1]) && cs[j] == Step(cs[j - 1], es[j - 1]);
    }
  }

  /** A handle that is draining, or has been replaced, never sends again. */
  lemma NeverSendsAgain(cs: seq<Conns>, es: seq<Event>, i: nat, j: nat, id: nat)
    requires IsRun(cs, es) && i <= j <= |es| && id in cs[i].handles
    requires cs[i].handles[id].draining || id < cs[i].count
    ensures id !in cs[j].subscribed
  {
    DrainedForever(cs, es, i, j, id);
    ExactlyOneSubscriber(cs, es, i);
    ExactlyOneSubscriber(cs, es, j);
  }

  /** A drained handle that FCM has closed is never connected again. */
  lemma {:induction false} ClosedForever(cs: seq<Conns>, es: seq<Event>, i: nat, j: nat, id: nat)
    requires IsRun(cs, es) && i <= j <= |es| && id in cs[i].handles && cs[i].handles[id].phase == Closed
    ensures id in cs[j].handles && cs[j].handles[id].phase == Closed
    decreases j - i
  {
    if i < j {
      ClosedForever(cs, es, i, j - 1, id);
      RunInv(cs, es, j - 1);
      assert Enabled(cs[j - 1], es[j - 1]) && cs[j] == Step(cs[j - 1], es[j - 1]);
    }
  }

  /** The newest handle is the only one not draining exactly when no handle was told twice to drain: each
      repeat takes the subscription from a healthy handle, which is then left over. */
  lemma OnlyNewestUndrained(cs: seq<Conns>, es: seq<Event>, n: nat)
    requires IsRun(cs, es) && n <= |es|
    ensures |Undrained(cs[n])| == 1 + cs[n].repeats
    ensures Undrained(cs[n]) == {cs[n].count} <==> cs[n].repeats == 0
  {
    RunInv(cs, es, n);
    var u, k := Undrained(cs[n]), cs[n].count;
    assert k in u;
    assert u == {k} + (u - {k});
    if cs[n].repeats == 0 { assert |u - {k}| == 0; }
  }

  /** Such a run: the first handle is told twice to drain, and the second one, which never drained, is left
      without a subscription. */
  lemma DrainedTwice() returns (cs: seq<Conns>, es: seq<Event>)
    ensures IsRun(cs, es) && |es| == 3
    ensures cs[3].repeats == 1 && cs[3].subscribed == {3} && Undrained(cs[3]) == {2, 3}
  {
    var c1 := Step(START, Encrypted(1));
    var c2 := Step(c1, Draining(1));
    var c3 := Step(c2, Draining(1));
    cs, es := [START, c1, c2, c3], [Encrypted(1), Draining(1), Draining(1)];
    assert c2.handles.Keys == {1, 2} && c2.subscribed == {2};
    assert c3.handles.Keys == {1, 2, 3} && c3.subscribed == {3};
    assert Undrained(c3) == {2, 3};
  }

  // ---------------------------------------------------------------- a handle by its history

  /** The handle was told to drain. */
  predicate Drained(es: seq<Event>, id: nat) { exists j :: 0 <= j < |es| && es[j] == Draining(id) }

  /** The phase of a handle by the last thing that happened to it. */
  ghost function PhaseBy(es: seq<Event>, id: nat): Phase {
    if es == [] then Connecting
    else
      var before, e := es[..|es| - 1], es[|es| - 1];
      if e.id != id then PhaseBy(before, id)
      else match e
        case Encrypted(_) => Connected
        case Jid(_) => Authenticated
        case Disconnected(_, _) => if Drained(before, id) then Closed else Waiting
        case Timer(_) => Connecting
        case _ => PhaseBy(before, id)
  }

  /** How often it was lost since its last session. */
  ghost function LossesBy(es: seq<Event>, id: nat): nat {
    if es == [] then 0
    else
      var before, e := es[..|es| - 1], es[|es| - 1];
      if e == Jid(id) then 0
      else if e.Disconnected? && e.id == id && !Drained(before, id) then LossesBy(before, id) + 1
      else LossesBy(before, id)
  }

  /** One handle at the start, and one more each time a handle is told to drain. */
  function Drains(es: seq<Event>): nat {
    if es == [] then 0 else Drains(es[..|es| - 1]) + if es[|es| - 1].Draining? then 1 else 0
  }

  ghost predicate ByHistory(c: Conns, es: seq<Event>) {
    && c.count == 1 + Drains(es)
    && (forall j :: 0 <= j < |es| ==> es[j].id <= c.count)
    && (forall id :: id in c.handles ==>
          && c.handles[id].phase == PhaseBy(es, id) && c.handles[id].draining == Drained(es, id)
          && c.handles[id].losses == LossesBy(es, id))
  }

  /** Nothing has happened to a handle that does not exist yet. */
  lemma {:induction false} NothingYet(es: seq<Event>, id: nat)
    requires forall j :: 0 <= j < |es| ==> es[j].id != id
    ensures PhaseBy(es, id) == Connecting && !Drained(es, id) && LossesBy(es, id) == 0
    decreases |es|
  {
    if es != [] { NothingYet(es[..|es| - 1], id); }
  }

  lemma DrainedMore(es: seq<Event>, e: Event, id: nat)
    ensures Drained(es + [e], id) <==> Drained(es, id) || e == Draining(id)
  {
    var all := es + [e];
    if Drained(es, id) {
      var j :| 0 <= j < |es| && es[j] == Draining(id);
      assert all[j] == es[j];
    }
    if e == Draining(id) { assert all[|es|] == e; }
  }

  lemma StepByHistory(c: Conns, es: seq<Event>, e: Event)
    requires Inv(c) && ByHistory(c, es) && Enabled(c, e)
    ensures ByHistory(Step(c, e), es + [e])
  {
    var d, all := Step(c, e), es + [e];
    assert all[..|all| - 1] == es && all[|all| - 1] == e;
    assert e.id <= c.count <= d.count;
    forall id | id in d.handles
      ensures d.handles[id].phase == PhaseBy(all, id) && d.handles[id].draining == Drained(all, id)
      ensures d.handles[id].losses == LossesBy(all, id)
    {
      DrainedMore(es, e, id);
      if id !in c.handles {
        assert e.Draining? && id == c.count + 1;
        NothingYet(es, id);
      }
    }
  }

  /** In every run the number of handles, and the phase, the draining flag and the losses of each, are those that its
      events account for. */
  lemma {:induction false} HandlesFollowHistory(cs: seq<Conns>, es: seq<Event>, n: nat)
    requires IsRun(cs, es) && n <= |es|
    ensures ByHistory(cs[n], es[..n])
    decreases n
  {
    if n == 0 {
      assert START.handles.Keys == {1};
      assert es[..0] == [];
    } else {
      HandlesFollowHistory(cs, es, n - 1);
      RunInv(cs, es, n - 1);
      hide Inv, ByHistory;
      assert Enabled(cs[n - 1], es[n - 1]) && cs[n] == Step(cs[n - 1], es[n - 1]);
      StepByHistory(cs[n - 1], es[..n - 1], es[n - 1]);
      assert es[..n] == es[..n - 1] + [es[n - 1]];
    }
  }

  /** Reconnect delays of a handle fit a 32-bit int exactly for the first 21 losses in a row. */
  lemma ReconnectDelayFits(cs: seq<Conns>, es: seq<Event>, n: nat, id: nat, d: int)
    requires IsRun(cs, es) && n <= |es| && id in cs[n].handles && Backoff.IsDelta(d)
    ensures var h := cs[n].handles[id];
      Backoff.Delay(Backoff.NextSeed(h.expBoff), d) <= Backoff.INT_MAX <==> h.losses <= 20
  {
    RunInv(cs, es, n);
    InvHandle(cs[n], id);
    var h := cs[n].handles[id];
    Backoff.DelayForm(h.losses + 2, d);
    Backoff.RetryDelay(h.losses + 1, d);
  }

  // ---------------------------------------------------------------- the handlers

  /** The application's connection map and the state of the handles in it. */
  class Connections {
    var handles: map<nat, Handle>
    var fcmConnCount: nat
    var subscribed: set<nat>
    ghost var repeats: nat

    ghost function Abs(): Conns
      reads this
    {
      Conns(handles, fcmConnCount, subscribed, repeats)
    }

    constructor ()
      ensures Abs() == START && Inv(Abs())
    {
      handles, fcmConnCount, subscribed, repeats := map[], 0, {}, 0;
      new;
      CreateFcmHandle();
      StartInv();
    }

    method CreateFcmHandle()
      modifies this
      ensures Abs() == Created(old(Abs()))
    {
      fcmConnCount := fcmConnCount + 1;
      handles := handles[fcmConnCount := NEW_HANDLE];
      subscribed := subscribed + {fcmConnCount};
    }

    /** handleFcmConnectionDrainingStarted. */
    method HandleDrainingStarted()
      modifies this
      ensures Abs() == DrainingStarted(old(Abs()))
    {
      subscribed := subscribed - {fcmConnCount};
      CreateFcmHandle();
    }

    /** FcmConnection::handleControlMessage, and the slot that its signal reaches at once. */
    method HandleControlMessage(id: nat, control_type: string) returns (error: bool)
      requires Inv(Abs()) && Enabled(Abs(), Draining(id))
      modifies this
      ensures error == (control_type != "CONNECTION_DRAINING")
      ensures Abs() == Step(old(Abs()), if error then OtherControl(id) else Draining(id)) && Inv(Abs())
    {
      ghost var was := Abs();
      error := control_type != "CONNECTION_DRAINING";
      if !error {
        StepInv(was, Draining(id));
        hide Inv;
        if handles[id].draining { repeats := repeats + 1; }
        handles := handles[id := handles[id].(draining := true)];
        HandleDrainingStarted();
      }
    }

    /** FcmConnection::handleDisconnected; the delay of the reconnect timer, if one is set. */
    method HandleDisconnected(id: nat, random_delta: int) returns (reconnect: bool, msec: int)
      requires Inv(Abs()) && Enabled(Abs(), Disconnected(id, random_delta))
      modifies this
      ensures Abs() == Step(old(Abs()), Disconnected(id, random_delta)) && Inv(Abs())
      ensures reconnect == !old(handles)[id].draining
      ensures reconnect ==> msec == Backoff.Delay(old(handles)[id].losses + 2, random_delta)
    {
      StepInv(Abs(), Disconnected(id, random_delta));
      InvHandle(Abs(), id);
      hide Inv;
      var h := handles[id];
      reconnect, msec := !h.draining, 0;
      if reconnect {
        msec := Backoff.Delay(Backoff.NextSeed(h.expBoff), random_delta);
        handles := handles[id := h.(phase := Waiting, expBoff := Backoff.AfterNext(h.expBoff), losses := h.losses + 1)];
      } else {
        handles := handles[id := h.(phase := Closed)];
      }
    }

    /** FcmConnection::readJid. */
    method ReadJid(id: nat)
      requires Inv(Abs()) && Enabled(Abs(), Jid(id))
      modifies this
      ensures Abs() == Step(old(Abs()), Jid(id)) && Inv(Abs())
    {
      StepInv(Abs(), Jid(id));
      hide Inv;
      var h := handles[id];
      handles := handles[id := h.(phase := Authenticated, expBoff := Backoff.AfterReset(h.expBoff), losses := 0)];
    }
  }
}
