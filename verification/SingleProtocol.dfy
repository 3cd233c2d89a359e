/** Clerks and the single key/value server over a network that loses requests and replies: every
    Put and Append takes effect exactly once, and every run is linearizable. An attempt is
    executed at most once, and not after its call has returned. */
module SingleProtocol {
  import opened Options
  import opened Linearizability
  import opened KvModel
  import opened KvMeaning
  import S = SingleServer

  /** Where a clerk is: asking for a value, modifying, or reporting that it has the answer. */
  datatype Phase =
    | Idle
    | Asking(key: string, id: int, call: int)
    | Modifying(req: S.Request, call: int)
    | Reporting(req: S.Request, call: int, value: string)

  /** An effect on the server, or a Get's read, at one moment. */
  datatype Event = Event(id: int, client: int, input: KvValue, output: string, call: int, time: int)

  datatype Done = Done(value: string, ret: int)

  datatype System = System(
    now: nat,
    server: S.Server,
    clerks: map<int, Phase>,
    used: set<int>,
    trace: seq<Event>,
    done: map<int, Done>)

  datatype Step =
    | Ask(client: int, key: string, id: int)
    | Read(client: int, replied: bool)
    | Begin(client: int, req: S.Request)
    | Modify(client: int, replied: bool)
    | Report(client: int, replied: bool)

  function PhaseOf(s: System, c: int): Phase {
    if c in s.clerks then s.clerks[c] else Idle
  }

  /** Put is operation 1 of the model, Append with its return value any above 2. */
  function InputOf(req: S.Request): KvValue {
    KvInput(if req.kind == S.PUT then 1 else 3, req.key, req.value)
  }

  /** A Put is a put of the history, an Append an append that also reads. */
  lemma RequestsAreOperations(req: S.Request, op: KvOp)
    requires op.input == InputOf(req) && op.output.KvOutput?
    ensures req.kind == S.PUT ==> IsPut(op, req.key) && !Reads(op)
    ensures req.kind == S.APPEND ==> IsAppend(op, req.key) && Reads(op)
    ensures op.input.value == req.value
  {
  }

  ghost predicate AskStep(s: System, s': System, c: int, key: string, id: int) {
    && PhaseOf(s, c) == Idle && id !in s.used
    && s' == s.(now := s.now + 1, used := s.used + {id}, clerks := s.clerks[c := Asking(key, id, s.now)])
  }

  /** The server executes a Get; its reply arrives or not. */
  ghost predicate ReadStep(s: System, s': System, c: int, replied: bool) {
    var p := PhaseOf(s, c);
    && p.Asking?
    && var value := At(s.server.data, p.key);
       s' == if !replied then s.(now := s.now + 1)
             else s.(now := s.now + 1,
                     clerks := s.clerks[c := Idle],
                     trace := s.trace + [Event(p.id, c, KvInput(0, p.key, ""), value, p.call, s.now)],
                     done := s.done[p.id := Done(value, s.now)])
  }

  ghost predicate BeginStep(s: System, s': System, c: int, req: S.Request) {
    && PhaseOf(s, c) == Idle && req.id !in s.used
    && s' == s.(now := s.now + 1, used := s.used + {req.id}, clerks := s.clerks[c := Modifying(req, s.now)])
  }

  /** The server executes an attempt to modify; its reply arrives or not. */
  ghost predicate ModifyStep(s: System, s': System, c: int, replied: bool) {
    var p := PhaseOf(s, c);
    && p.Modifying?
    && var (server', value) := S.Modify(s.server, p.req);
       s' == s.(now := s.now + 1,
                server := server',
                clerks := if replied then s.clerks[c := Reporting(p.req, p.call, value)] else s.clerks,
                trace := if server' == s.server then s.trace
                         else s.trace + [Event(p.req.id, c, InputOf(p.req), value, p.call, s.now)])
  }

  /** The server executes a report; once its reply arrives the clerk's call returns. */
  ghost predicate ReportStep(s: System, s': System, c: int, replied: bool) {
    var p := PhaseOf(s, c);
    && p.Reporting?
    && s' == s.(now := s.now + 1,
                server := S.Report(s.server, p.req.id),
                clerks := if replied then s.clerks[c := Idle] else s.clerks,
                done := if replied then s.done[p.req.id := Done(p.value, s.now)] else s.done)
  }

  ghost predicate Next(s: System, s': System, step: Step) {
    match step
    case Ask(c, key, id) => AskStep(s, s', c, key, id)
    case Read(c, replied) => ReadStep(s, s', c, replied)
    case Begin(c, req) => BeginStep(s, s', c, req)
    case Modify(c, replied) => ModifyStep(s, s', c, replied)
    case Report(c, replied) => ReportStep(s, s', c, replied)
  }

  ghost predicate CanStep(s: System, s': System) {
    exists step :: Next(s, s', step)
  }

  ghost predicate Init(s: System) {
    s == System(0, S.EMPTY, map[], {}, [], map[])
  }

  ghost predicate IsRun(run: seq<System>) {
    run != [] && Init(run[0]) && forall t :: 0 <= t < |run| - 1 ==> CanStep(run[t], run[t + 1])
  }

  // ----- the invariant -----

  /** The events make a run of the whole map. */
  ghost function EventsRun(trace: seq<Event>): Option<Store>
    decreases |trace|
  {
    if trace == [] then Some(map[])
    else
      var e := trace[|trace| - 1];
      match EventsRun(trace[..|trace| - 1])
      case None => None
      case Some(st) =>
        var (ok, st') := WholeStep(st, e.input, KvOutput(e.output));
        if ok then Some(st') else None
  }

  ghost predicate EventOk(s: System, k: int)
    requires 0 <= k < |s.trace|
  {
    var e := s.trace[k];
    e.id in s.used && e.call <= e.time < s.now && e.input.KvInput?
  }

  ghost predicate TraceOk(s: System) {
    && (forall k :: 0 <= k < |s.trace| ==> EventOk(s, k))
    && (forall j, k :: 0 <= j < k < |s.trace| ==> s.trace[j].id != s.trace[k].id && s.trace[j].time < s.trace[k].time)
    && Agrees(EventsRun(s.trace), s.server.data)
  }

  ghost predicate NoEvent(trace: seq<Event>, id: int) {
    forall k :: 0 <= k < |trace| ==> trace[k].id != id
  }

  ghost predicate IsEvent(e: Event, id: int, client: int, input: KvValue, value: string, call: int) {
    e.id == id && e.client == client && e.input == input && e.output == value && e.call == call
  }

  /** The request took effect, and `value` is the answer to it. */
  ghost predicate TookEffect(trace: seq<Event>, c: int, req: S.Request, call: int, value: string) {
    exists k :: 0 <= k < |trace| && IsEvent(trace[k], req.id, c, InputOf(req), value, call)
  }

  /** What the server would answer to a request it remembers. */
  function Remembered(sv: S.Server, req: S.Request): string
    requires req.id in sv.messages
  {
    if req.kind == S.PUT then "" else sv.messages[req.id]
  }

  function IdIn(p: Phase): Option<int> {
    match p
    case Idle => None
    case Asking(_, id, _) => Some(id)
    case Modifying(req, _) => Some(req.id)
    case Reporting(req, _, _) => Some(req.id)
  }

  ghost predicate PhaseOk(s: System, c: int) {
    var p := PhaseOf(s, c);
    && (p != Idle ==> IdIn(p).value in s.used && IdIn(p).value !in s.done && p.call < s.now)
    && (p.Asking? ==> NoEvent(s.trace, p.id) && p.id !in s.server.messages)
    && (p.Modifying? ==>
          if p.req.id in s.server.messages then TookEffect(s.trace, c, p.req, p.call, Remembered(s.server, p.req))
          else NoEvent(s.trace, p.req.id))
    && (p.Reporting? ==> TookEffect(s.trace, c, p.req, p.call, p.value))
  }

  ghost predicate PhasesOk(s: System) {
    && (forall c :: PhaseOk(s, c))
    && (forall c, c' :: IdIn(PhaseOf(s, c)).Some? && IdIn(PhaseOf(s, c)) == IdIn(PhaseOf(s, c')) ==> c == c')
  }

  /** A clerk is in the middle of the call with this id. */
  ghost predicate InFlight(s: System, id: int) {
    exists c :: (PhaseOf(s, c).Modifying? || PhaseOf(s, c).Reporting?) && PhaseOf(s, c).req.id == id
  }

  ghost predicate MessagesOk(s: System) {
    forall id :: id in s.server.messages ==> InFlight(s, id)
  }

  /** A call that returned took effect before, and returned what its event says. */
  ghost predicate Completed(s: System, id: int, k: int)
    requires id in s.done
  {
    && 0 <= k < |s.trace| && s.trace[k].id == id && s.trace[k].output == s.done[id].value
    && s.trace[k].time <= s.done[id].ret < s.now
  }

  ghost predicate DoneOk(s: System) {
    forall id :: id in s.done ==> id in s.used && exists k :: Completed(s, id, k)
  }

  ghost predicate Inv(s: System) {
    TraceOk(s) && PhasesOk(s) && MessagesOk(s) && DoneOk(s)
  }

  lemma InitInv(s: System)
    requires Init(s)
    ensures Inv(s)
  {
  }

  // ----- beginning a call -----

  /** A clerk begins with an id nobody used. */
  lemma StartInv(s: System, s': System, c: int, p: Phase)
    requires Inv(s) && PhaseOf(s, c) == Idle && (p.Asking? || p.Modifying?) && p.call == s.now
    requires IdIn(p).value !in s.used
    requires s' == s.(now := s.now + 1, used := s.used + {IdIn(p).value}, clerks := s.clerks[c := p])
    ensures Inv(s')
  {
    hide EventsRun, Agrees;
    var id := IdIn(p).value;
    forall k | 0 <= k < |s'.trace| ensures EventOk(s', k) {
      assert EventOk(s, k);
    }
    assert NoEvent(s.trace, id) by {
      forall k | 0 <= k < |s.trace| ensures s.trace[k].id != id {
        assert EventOk(s, k);
      }
    }
    StartMessages(s, s', c, p);
    forall d ensures PhaseOk(s', d) {
      assert PhaseOk(s, d);
      assert id in s.done ==> id in s.used;
    }
    forall a, b | IdIn(PhaseOf(s', a)).Some? && IdIn(PhaseOf(s', a)) == IdIn(PhaseOf(s', b)) ensures a == b {
      assert PhaseOk(s, a) && PhaseOk(s, b);
    }
    forall d | d in s'.done ensures d in s'.used && exists k :: Completed(s', d, k) {
      var k :| Completed(s, d, k);
      assert Completed(s', d, k);
    }
  }

  lemma StartMessages(s: System, s': System, c: int, p: Phase)
    requires Inv(s) && PhaseOf(s, c) == Idle && (p.Asking? || p.Modifying?) && IdIn(p).value !in s.used
    requires s' == s.(now := s.now + 1, used := s.used + {IdIn(p).value}, clerks := s.clerks[c := p])
    ensures MessagesOk(s') && IdIn(p).value !in s.server.messages
  {
    hide TraceOk, DoneOk;
    forall id | id in s'.server.messages ensures InFlight(s', id) && id in s.used {
      assert InFlight(s, id);
      var d :| (PhaseOf(s, d).Modifying? || PhaseOf(s, d).Reporting?) && PhaseOf(s, d).req.id == id;
      assert PhaseOk(s, d);
      assert PhaseOf(s', d) == PhaseOf(s, d);
    }
  }

  // ----- one more event -----

  lemma EffectKept(trace: seq<Event>, e: Event, c: int, req: S.Request, call: int, value: string)
    requires TookEffect(trace, c, req, call, value)
    ensures TookEffect(trace + [e], c, req, call, value)
  {
    var k :| 0 <= k < |trace| && IsEvent(trace[k], req.id, c, InputOf(req), value, call);
    assert (trace + [e])[k] == trace[k];
  }

  lemma EventsMore(trace: seq<Event>, e: Event, data: map<string, string>, data': map<string, string>)
    requires Agrees(EventsRun(trace), data)
    requires forall st :: Agrees(Some(st), data) ==>
               var (ok, st') := WholeStep(st, e.input, KvOutput(e.output)); ok && Agrees(Some(st'), data')
    ensures Agrees(EventsRun(trace + [e]), data')
  {
    assert (trace + [e])[..|trace|] == trace;
    assert Agrees(Some(EventsRun(trace).value), data);
  }

  lemma TraceMore(s: System, s': System, e: Event)
    requires TraceOk(s) && s'.now == s.now + 1 && s'.used == s.used && s'.trace == s.trace + [e]
    requires e.id in s.used && NoEvent(s.trace, e.id) && e.call <= e.time == s.now && e.input.KvInput?
    requires Agrees(EventsRun(s'.trace), s'.server.data)
    ensures TraceOk(s')
  {
    hide EventsRun, Agrees;
    forall k | 0 <= k < |s'.trace| ensures EventOk(s', k) {
      if k < |s.trace| {
        assert EventOk(s, k);
      }
    }
    forall j, k | 0 <= j < k < |s'.trace|
      ensures s'.trace[j].id != s'.trace[k].id && s'.trace[j].time < s'.trace[k].time
    {
      assert EventOk(s, j);
    }
  }

  lemma DoneMore(s: System, s': System)
    requires DoneOk(s) && s'.now == s.now + 1 && s.used <= s'.used && s.trace <= s'.trace && s'.done == s.done
    ensures DoneOk(s')
  {
    forall d | d in s'.done ensures d in s'.used && exists k :: Completed(s', d, k) {
      var k :| Completed(s, d, k);
      assert Completed(s', d, k);
    }
  }

  // ----- reading -----

  lemma WaitInv(s: System, s': System)
    requires Inv(s) && s' == s.(now := s.now + 1)
    ensures Inv(s')
  {
    hide EventsRun, Agrees;
    forall k | 0 <= k < |s'.trace| ensures EventOk(s', k) {
      assert EventOk(s, k);
    }
    forall d ensures PhaseOk(s', d) && PhaseOf(s', d) == PhaseOf(s, d) {
      assert PhaseOk(s, d);
    }
    forall id | id in s'.server.messages ensures InFlight(s', id) {
      assert InFlight(s, id);
    }
    DoneMore(s, s');
  }

  lemma ReadTrace(s: System, s': System, c: int)
    requires Inv(s) && ReadStep(s, s', c, true)
    ensures TraceOk(s')
  {
    hide MessagesOk, DoneOk, EventsRun;
    var p := PhaseOf(s, c);
    assert PhaseOk(s, c);
    var e := s'.trace[|s.trace|];
    assert s'.trace == s.trace + [e];
    forall st | Agrees(Some(st), s.server.data)
      ensures var (ok, st') := WholeStep(st, e.input, KvOutput(e.output)); ok && Agrees(Some(st'), s.server.data)
    {
      assert At(st, p.key) == At(s.server.data, p.key);
    }
    EventsMore(s.trace, e, s.server.data, s.server.data);
    TraceMore(s, s', e);
  }

  lemma ReadPhase(s: System, s': System, c: int, d: int)
    requires Inv(s) && ReadStep(s, s', c, true)
    ensures PhaseOk(s', d) && PhaseOf(s', d) == if d == c then Idle else PhaseOf(s, d)
  {
    hide TraceOk, MessagesOk, DoneOk, TookEffect, InputOf;
    assert PhaseOk(s, c) && PhaseOk(s, d);
    var p, q, e := PhaseOf(s, c), PhaseOf(s, d), s'.trace[|s.trace|];
    assert s'.trace == s.trace + [e];
    if d != c && q != Idle {
      assert IdIn(q) != IdIn(p);
      if q.Reporting? {
        EffectKept(s.trace, e, d, q.req, q.call, q.value);
      } else if q.Modifying? && q.req.id in s.server.messages {
        EffectKept(s.trace, e, d, q.req, q.call, Remembered(s.server, q.req));
      }
    }
  }

  lemma ReadInv(s: System, s': System, c: int, replied: bool)
    requires Inv(s) && ReadStep(s, s', c, replied)
    ensures Inv(s')
  {
    if !replied {
      WaitInv(s, s');
    } else {
      ReadTrace(s, s', c);
      forall d ensures PhaseOk(s', d) && PhaseOf(s', d) == if d == c then Idle else PhaseOf(s, d) {
        ReadPhase(s, s', c, d);
      }
      hide TraceOk, PhaseOk, EventsRun;
      forall id | id in s'.server.messages ensures InFlight(s', id) {
        assert InFlight(s, id);
        var d :| (PhaseOf(s, d).Modifying? || PhaseOf(s, d).Reporting?) && PhaseOf(s, d).req.id == id;
        assert PhaseOf(s', d) == PhaseOf(s, d);
      }
      ReadDone(s, s', c);
    }
  }

  lemma ReadDone(s: System, s': System, c: int)
    requires Inv(s) && ReadStep(s, s', c, true)
    ensures DoneOk(s')
  {
    hide TraceOk, MessagesOk, NoEvent, TookEffect;
    assert PhaseOk(s, c);
    var id := PhaseOf(s, c).id;
    DoneMore(s, s'.(done := s.done));
    forall d | d in s'.done ensures d in s'.used && exists k :: Completed(s', d, k) {
      if d == id {
        assert Completed(s', d, |s.trace|);
      } else {
        var k :| Completed(s'.(done := s.done), d, k);
        assert Completed(s', d, k);
      }
    }
  }

  // ----- modifying -----

  /** The attempt takes effect exactly if the server does not remember the id. */
  lemma EffectIff(sv: S.Server, req: S.Request)
    ensures S.Modify(sv, req).0 == sv <==> req.id in sv.messages
    ensures req.id in sv.messages ==> S.Modify(sv, req).1 == Remembered(sv, req)
    ensures req.id !in sv.messages ==>
              var (sv', value) := S.Modify(sv, req);
              && sv'.messages.Keys == sv.messages.Keys + {req.id}
              && (forall id :: id in sv.messages ==> sv'.messages[id] == sv.messages[id])
              && Remembered(sv', req) == value
  {
    if req.id !in sv.messages {
      assert req.id in S.Modify(sv, req).0.messages;
    }
  }

  /** The model accepts the effect, with the answer that was given. */
  lemma EffectAccepted(st: Store, sv: S.Server, req: S.Request)
    requires Agrees(Some(st), sv.data) && req.id !in sv.messages
    ensures var (sv', value) := S.Modify(sv, req);
            var (ok, st') := WholeStep(st, InputOf(req), KvOutput(value));
            ok && Agrees(Some(st'), sv'.data)
  {
    assert At(st, req.key) == At(sv.data, req.key);
    var (sv', value) := S.Modify(sv, req);
    var (ok, st') := WholeStep(st, InputOf(req), KvOutput(value));
    forall key ensures At(st', key) == At(sv'.data, key) {
      assert At(st, key) == At(sv.data, key);
    }
  }

  lemma ModifyTrace(s: System, s': System, c: int, replied: bool)
    requires Inv(s) && ModifyStep(s, s', c, replied)
    ensures TraceOk(s')
  {
    hide MessagesOk, DoneOk, EventsRun, Agrees, S.Modify, InputOf;
    var req := PhaseOf(s, c).req;
    assert PhaseOk(s, c);
    EffectIff(s.server, req);
    if req.id in s.server.messages {
      forall k | 0 <= k < |s'.trace| ensures EventOk(s', k) {
        assert EventOk(s, k);
      }
    } else {
      var e := s'.trace[|s.trace|];
      assert s'.trace == s.trace + [e];
      forall st | Agrees(Some(st), s.server.data)
        ensures var (ok, st') := WholeStep(st, e.input, KvOutput(e.output)); ok && Agrees(Some(st'), s'.server.data)
      {
        EffectAccepted(st, s.server, req);
      }
      EventsMore(s.trace, e, s.server.data, s'.server.data);
      InputIs(req);
      TraceMore(s, s', e);
    }
  }

  lemma InputIs(req: S.Request)
    ensures InputOf(req).KvInput?
  {
  }

  /** The clerk whose request it is. */
  lemma ModifyOwn(s: System, s': System, c: int, replied: bool)
    requires Inv(s) && ModifyStep(s, s', c, replied)
    ensures PhaseOk(s', c) && IdIn(PhaseOf(s', c)) == IdIn(PhaseOf(s, c))
    ensures PhaseOf(s', c).Modifying? || PhaseOf(s', c).Reporting?
  {
    hide TraceOk, MessagesOk, DoneOk, S.Modify, InputOf;
    assert PhaseOk(s, c);
    var p := PhaseOf(s, c);
    EffectIff(s.server, p.req);
    if p.req.id !in s.server.messages {
      var e := s'.trace[|s.trace|];
      assert IsEvent(e, p.req.id, c, InputOf(p.req), S.Modify(s.server, p.req).1, p.call);
      assert TookEffect(s'.trace, c, p.req, p.call, S.Modify(s.server, p.req).1);
    }
  }

  lemma ModifyOther(s: System, s': System, c: int, replied: bool, d: int)
    requires Inv(s) && ModifyStep(s, s', c, replied) && d != c
    ensures PhaseOk(s', d) && PhaseOf(s', d) == PhaseOf(s, d)
  {
    hide TraceOk, MessagesOk, DoneOk, TookEffect, InputOf, S.Modify;
    assert PhaseOk(s, c) && PhaseOk(s, d);
    var p, q := PhaseOf(s, c), PhaseOf(s, d);
    EffectIff(s.server, p.req);
    assert q != Idle ==> IdIn(q) != IdIn(p);
    if p.req.id !in s.server.messages {
      var e := s'.trace[|s.trace|];
      assert s'.trace == s.trace + [e];
      if q.Reporting? {
        EffectKept(s.trace, e, d, q.req, q.call, q.value);
      } else if q.Modifying? && q.req.id in s.server.messages {
        EffectKept(s.trace, e, d, q.req, q.call, Remembered(s.server, q.req));
      }
    }
  }

  lemma ModifyInv(s: System, s': System, c: int, replied: bool)
    requires Inv(s) && ModifyStep(s, s', c, replied)
    ensures Inv(s')
  {
    ModifyTrace(s, s', c, replied);
    EffectIff(s.server, PhaseOf(s, c).req);
    hide S.Modify, TraceOk, EventsRun, InputOf, PhaseOk;
    forall d
      ensures PhaseOk(s', d) && IdIn(PhaseOf(s', d)) == IdIn(PhaseOf(s, d))
      ensures d != c ==> PhaseOf(s', d) == PhaseOf(s, d)
    {
      if d == c {
        ModifyOwn(s, s', c, replied);
      } else {
        ModifyOther(s, s', c, replied, d);
      }
    }
    forall id | id in s'.server.messages ensures InFlight(s', id) {
      if id == PhaseOf(s, c).req.id {
        ModifyOwn(s, s', c, replied);
        assert PhaseOf(s', c).req.id == id;
      } else {
        assert InFlight(s, id);
        var d :| (PhaseOf(s, d).Modifying? || PhaseOf(s, d).Reporting?) && PhaseOf(s, d).req.id == id;
        assert PhaseOf(s', d) == PhaseOf(s, d);
      }
    }
    DoneMore(s, s');
  }

  // ----- reporting -----

  lemma ReportPhase(s: System, s': System, c: int, replied: bool, d: int)
    requires Inv(s) && ReportStep(s, s', c, replied)
    ensures PhaseOk(s', d) && PhaseOf(s', d) == if d == c && replied then Idle else PhaseOf(s, d)
  {
    hide TraceOk, MessagesOk, DoneOk, TookEffect, InputOf;
    assert PhaseOk(s, c) && PhaseOk(s, d);
    if d != c && PhaseOf(s, d) != Idle {
      assert IdIn(PhaseOf(s, d)) != IdIn(PhaseOf(s, c));
    }
  }

  lemma ReportDone(s: System, s': System, c: int, replied: bool)
    requires Inv(s) && ReportStep(s, s', c, replied)
    ensures DoneOk(s')
  {
    hide MessagesOk, NoEvent, EventsRun, Agrees, InputOf;
    assert PhaseOk(s, c);
    var p := PhaseOf(s, c);
    DoneMore(s, s'.(done := s.done));
    forall d | d in s'.done ensures d in s'.used && exists k :: Completed(s', d, k) {
      if replied && d == p.req.id {
        var k :| 0 <= k < |s.trace| && IsEvent(s.trace[k], p.req.id, c, InputOf(p.req), p.value, p.call);
        assert EventOk(s, k);
        assert Completed(s', d, k);
      } else {
        var k :| Completed(s'.(done := s.done), d, k);
        assert Completed(s', d, k);
      }
    }
  }

  lemma ReportInv(s: System, s': System, c: int, replied: bool)
    requires Inv(s) && ReportStep(s, s', c, replied)
    ensures Inv(s')
  {
    ReportDone(s, s', c, replied);
    hide DoneOk, EventsRun, Agrees, InputOf, PhaseOk, NoEvent, TookEffect;
    forall k | 0 <= k < |s'.trace| ensures EventOk(s', k) {
      assert EventOk(s, k);
    }
    forall d ensures PhaseOk(s', d) && PhaseOf(s', d) == if d == c && replied then Idle else PhaseOf(s, d) {
      ReportPhase(s, s', c, replied, d);
    }
    forall id | id in s'.server.messages ensures InFlight(s', id) {
      assert InFlight(s, id);
      var d :| (PhaseOf(s, d).Modifying? || PhaseOf(s, d).Reporting?) && PhaseOf(s, d).req.id == id;
      assert PhaseOf(s', d) == PhaseOf(s, d);
    }
  }

  // ----- every run -----

  lemma StepInv(s: System, s': System)
    requires Inv(s) && CanStep(s, s')
    ensures Inv(s')
  {
    hide Inv, ReadStep, ModifyStep, ReportStep;
    var step :| Next(s, s', step);
    match step
    case Ask(c, key, id) => StartInv(s, s', c, Asking(key, id, s.now));
    case Read(c, replied) => ReadInv(s, s', c, replied);
    case Begin(c, req) => StartInv(s, s', c, Modifying(req, s.now));
    case Modify(c, replied) => ModifyInv(s, s', c, replied);
    case Report(c, replied) => ReportInv(s, s', c, replied);
  }

  lemma {:induction false} RunInv(run: seq<System>, t: nat)
    requires IsRun(run) && t < |run|
    ensures Inv(run[t])
    decreases t
  {
    hide Inv, CanStep;
    if t == 0 {
      InitInv(run[0]);
    } else {
      RunInv(run, t - 1);
      assert CanStep(run[t - 1], run[t - 1 + 1]);
      StepInv(run[t - 1], run[t]);
    }
  }

  /** In every state of every run: no call takes effect twice; a call that returned took effect,
      and returned what its event says; and the server remembers only ids of calls in flight. */
  lemma ExactlyOnce(run: seq<System>, t: nat)
    requires IsRun(run) && t < |run|
    ensures forall j, k :: 0 <= j < k < |run[t].trace| ==> run[t].trace[j].id != run[t].trace[k].id
    ensures forall id :: id in run[t].done ==> exists k :: Completed(run[t], id, k)
    ensures forall id :: id in run[t].server.messages ==> InFlight(run[t], id)
  {
    RunInv(run, t);
  }

  lemma {:induction false} EventsRunPrefix(trace: seq<Event>, k: int)
    requires EventsRun(trace).Some? && 0 <= k <= |trace|
    ensures EventsRun(trace[..k]).Some?
    decreases |trace|
  {
    if k == |trace| {
      assert trace[..k] == trace;
    } else {
      var n := |trace| - 1;
      EventsRunPrefix(trace[..n], k);
      assert trace[..n][..k] == trace[..k];
    }
  }

  /** An Append returns the value its key had just before its effect. */
  lemma AppendReturnsOld(run: seq<System>, t: nat, k: nat)
    requires IsRun(run) && t < |run| && k < |run[t].trace| && run[t].trace[k].input.KvInput?
    requires run[t].trace[k].input.op == 3
    ensures EventsRun(run[t].trace[..k]).Some?
    ensures run[t].trace[k].output == At(EventsRun(run[t].trace[..k]).value, run[t].trace[k].input.key)
  {
    hide PhasesOk, MessagesOk, DoneOk, IsRun;
    RunInv(run, t);
    var trace := run[t].trace;
    EventsRunPrefix(trace, k + 1);
    EventsRunPrefix(trace, k);
    assert trace[..k + 1][..k] == trace[..k] && trace[..k + 1][k] == trace[k];
  }

  // ----- linearizability -----

  /** Event `k` as an operation; a call in flight is taken to return now. */
  ghost function OperationOf(s: System, k: int): KvOp
    requires 0 <= k < |s.trace|
  {
    var e := s.trace[k];
    Operation(e.client, e.input, e.call, KvOutput(e.output), if e.id in s.done then s.done[e.id].ret else s.now)
  }

  ghost function History(s: System): (ops: seq<KvOp>)
    ensures |ops| == |s.trace| && forall k :: 0 <= k < |ops| ==> ops[k] == OperationOf(s, k)
  {
    seq(|s.trace|, k requires 0 <= k < |s.trace| => OperationOf(s, k))
  }

  lemma {:induction false} HistoryRuns(s: System, n: int)
    requires 0 <= n <= |s.trace| && EventsRun(s.trace).Some?
    ensures Run(Whole(), map[], History(s)[..n]) == EventsRun(s.trace[..n])
    decreases n
  {
    hide WholeStep;
    var ops := History(s);
    if n > 0 {
      HistoryRuns(s, n - 1);
      EventsRunPrefix(s.trace, n);
      EventsRunPrefix(s.trace, n - 1);
      assert s.trace[..n][..n - 1] == s.trace[..n - 1];
      assert ops[..n] == ops[..n - 1] + [ops[n - 1]];
      RunMore(Whole(), map[], ops[..n - 1], ops[n - 1]);
    }
  }

  lemma HistoryRespects(s: System)
    requires Inv(s)
    ensures RespectsTime(History(s))
  {
    hide PhasesOk, MessagesOk, EventsRun, Agrees;
    var ops := History(s);
    forall i, j | 0 <= i < j < |ops| ensures !(ops[j].ret < ops[i].call) {
      assert EventOk(s, i) && EventOk(s, j);
      var id := s.trace[j].id;
      if id in s.done {
        var k :| Completed(s, id, k);
        assert k == j;
      }
    }
  }

  /** Every state of every run is linearizable: the calls that took effect, with the values they
      returned or will return, in the order of their effects. */
  lemma ServerLinearizable(run: seq<System>, t: nat)
    requires IsRun(run) && t < |run|
    ensures Linearizable(Whole(), History(run[t])) && Consistent(History(run[t]))
  {
    hide PhasesOk, MessagesOk, DoneOk, RespectsTime, EventsRun, Run, Explains, Typed, Timed;
    var s := run[t];
    RunInv(run, t);
    HistoryRespects(s);
    HistoryRuns(s, |s.trace|);
    assert s.trace[..|s.trace|] == s.trace;
    var ops := History(s);
    assert ops[..|ops|] == ops;
    assert IsLinearization(Whole(), ops, ops);
    HistoryTimed(run, t);
    LinearizableIff(ops);
  }

  /** The history is one the checker takes. */
  lemma HistoryTimed(run: seq<System>, t: nat)
    requires IsRun(run) && t < |run|
    ensures Typed(History(run[t])) && Timed(History(run[t]))
  {
    hide PhasesOk, MessagesOk, EventsRun, Agrees;
    var s := run[t];
    RunInv(run, t);
    var ops := History(s);
    forall i | 0 <= i < |ops| ensures ops[i].input.KvInput? && ops[i].call <= ops[i].ret {
      assert EventOk(s, i);
      var id := s.trace[i].id;
      if id in s.done {
        var k :| Completed(s, id, k);
        assert k == i;
      }
    }
  }
}
