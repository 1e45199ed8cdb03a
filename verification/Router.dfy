/** The ACP router (p1-acp): session processes behind one connection. Each method is one atomic
    step of the program (one lock region, or one thing a task does alone); `Interleave` runs
    any number of them in any order. */
module AcpRouter {
  import opened Contracts

  datatype Outcome = Answered(value: string) | Failed(message: string)

  const ENDED := Failed("the session has ended")

  /** What goes to a process: a line, or the end of its input. */
  datatype Write = Line(text: string) | Close

  /** A continuation, by the number of the `ask` it was handed to. */
  type Reply = nat

  /** Where a continuation is. `Reserved` and `Held` are the local state of a running `ask`, or
      of the relay. */
  datatype Place =
    | Reserved(id: nat)
    | Waiting(id: nat)
    | Held(outcome: Outcome, byRelay: bool)
    | Ran(outcome: Outcome)

  predicate Holds(p: Place) {
    p.Reserved? || p.Waiting?
  }

  ghost predicate IdsApart(places: seq<Place>, next: nat) {
    && (forall t :: 0 <= t < |places| && Holds(places[t]) ==> places[t].id < next)
    && (forall t, u :: 0 <= t < u < |places| && Holds(places[t]) && Holds(places[u]) ==> places[t].id != places[u].id)
  }

  ghost predicate Waits(places: seq<Place>, pending: Option<map<nat, Reply>>) {
    && (forall t :: 0 <= t < |places| && places[t].Waiting? ==>
                      pending.Some? && places[t].id in pending.value && pending.value[places[t].id] == t)
    && (pending.Some? ==> forall i :: i in pending.value ==>
                            pending.value[i] < |places| && places[pending.value[i]] == Waiting(i))
  }

  ghost predicate Logged(places: seq<Place>, runs: seq<(Reply, Outcome)>) {
    && (forall k :: 0 <= k < |runs| ==> runs[k].0 < |places| && places[runs[k].0] == Ran(runs[k].1))
    && (forall k, l :: 0 <= k < l < |runs| ==> runs[k].0 != runs[l].0)
    && (forall t :: 0 <= t < |places| && places[t].Ran? ==> exists k :: 0 <= k < |runs| && runs[k].0 == t)
  }

  /** A reserved id is free in the map: registering replaces no continuation. */
  lemma RegisterWaits(places: seq<Place>, next: nat, pending: map<nat, Reply>, requestId: nat, reply: Reply)
    requires IdsApart(places, next) && Waits(places, Some(pending))
    requires reply < |places| && places[reply] == Reserved(requestId)
    ensures requestId !in pending
    ensures var after := places[reply := Waiting(requestId)];
            IdsApart(after, next) && Waits(after, Some(pending[requestId := reply]))
  {
  }

  lemma RefuseWaits(places: seq<Place>, next: nat, requestId: nat, reply: Reply)
    requires IdsApart(places, next) && Waits(places, None)
    requires reply < |places| && places[reply] == Reserved(requestId)
    ensures var after := places[reply := Held(ENDED, false)]; IdsApart(after, next) && Waits(after, None)
  {
  }

  /** The relay has nothing in hand. */
  predicate RelayIdle(places: seq<Place>) {
    forall t :: 0 <= t < |places| && places[t].Held? ==> !places[t].byRelay
  }

  lemma LoggedRun(places: seq<Place>, runs: seq<(Reply, Outcome)>, reply: Reply, outcome: Outcome)
    requires Logged(places, runs) && reply < |places| && !places[reply].Ran?
    ensures Logged(places[reply := Ran(outcome)], runs + [(reply, outcome)])
  {
    var after, log := places[reply := Ran(outcome)], runs + [(reply, outcome)];
    forall t | 0 <= t < |after| && after[t].Ran? ensures exists k :: 0 <= k < |log| && log[k].0 == t {
      if t == reply {
        assert log[|runs|].0 == t;
      } else {
        var k :| 0 <= k < |runs| && runs[k].0 == t;
        assert log[k].0 == t;
      }
    }
  }

  /** What did not run is not logged, wherever it goes. */
  lemma LoggedMove(places: seq<Place>, runs: seq<(Reply, Outcome)>, after: seq<Place>)
    requires Logged(places, runs) && |places| <= |after|
    requires forall t :: 0 <= t < |after| ==> (after[t].Ran? <==> t < |places| && places[t].Ran?)
    requires forall t :: 0 <= t < |places| && places[t].Ran? ==> after[t] == places[t]
    ensures Logged(after, runs)
  {
  }

  class Session {
    const id: string
    /** The process's own id for the session. */
    var inner: string
    var toProcess: seq<Write>
    /** The waiting continuations by request id; none can wait behind the end of the output. */
    var pending: Option<map<nat, Reply>>
    var next: nat
    /** The relay has returned, and the process has exited. */
    var relayed: bool
    var ended: bool

    /** Every continuation ever handed to `ask`, in order. */
    var places: seq<Place>
    /** Every continuation run, in order. */
    var runs: seq<(Reply, Outcome)>

    /** Ids are never shared, the map holds exactly the waiting continuations, and each that ran
        is logged once. */
    ghost predicate Valid()
      reads this
    {
      && IdsApart(places, next) && Waits(places, pending) && Logged(places, runs)
      && (ended ==> relayed) && (relayed ==> pending.None? && RelayIdle(places))
    }

    /** What never goes back: an input once closed, a continuation once run. */
    twostate predicate Advances()
      reads this
    {
      && old(toProcess) <= toProcess && old(runs) <= runs && |old(places)| <= |places|
      && (old(ended) ==> ended) && (old(relayed) ==> relayed) && old(next) <= next
      && (forall t :: 0 <= t < |old(places)| && old(places)[t].Ran? ==> places[t] == old(places)[t])
    }

    predicate InputClosed()
      reads this
    {
      Close in toProcess
    }

    constructor (id: string)
      ensures Valid() && this.id == id && !ended && !relayed && places == [] && runs == [] && toProcess == []
    {
      this.id, inner, toProcess, pending, next := id, "", [], Some(map[]), 0;
      relayed, ended, places, runs := false, false, [], [];
    }

    // ---------------------------------------------------------------- ask

    /** A task calls `ask`: its continuation exists, and it takes the next id. */
    method Reserve() returns (requestId: nat, reply: Reply)
      requires Valid()
      modifies this
      ensures Valid() && Advances()
      ensures requestId == old(next) && reply == |old(places)| && places == old(places) + [Reserved(requestId)]
      ensures pending == old(pending) && runs == old(runs) && toProcess == old(toProcess) && ended == old(ended)
    {
      requestId, reply := next, |places|;
      LoggedMove(places, runs, places + [Reserved(requestId)]);
      hide Logged;
      next := next + 1;
      places := places + [Reserved(requestId)];
    }

    /** Under the lock: the continuation waits, or the ask keeps it because the output ended. */
    method Register(requestId: nat, reply: Reply) returns (refused: bool)
      requires Valid() && reply < |places| && places[reply] == Reserved(requestId)
      modifies this
      ensures Valid() && Advances()
      ensures refused <==> old(pending).None?
      ensures places == old(places)[reply := if refused then Held(ENDED, false) else Waiting(requestId)]
      ensures runs == old(runs) && toProcess == old(toProcess) && ended == old(ended)
    {
      refused := pending.None?;
      LoggedMove(places, runs, places[reply := if refused then Held(ENDED, false) else Waiting(requestId)]);
      hide Logged, IdsApart, Waits;
      if refused {
        RefuseWaits(places, next, requestId, reply);
        places := places[reply := Held(ENDED, false)];
      } else {
        RegisterWaits(places, next, pending.value, requestId, reply);
        pending := Some(pending.value[requestId := reply]);
        places := places[reply := Waiting(requestId)];
      }
    }

    /** A continuation in hand runs, outside every lock. */
    method RunReply(reply: Reply, outcome: Outcome)
      requires Valid() && reply < |places| && places[reply].Held? && places[reply].outcome == outcome
      modifies this
      ensures Valid() && Advances()
      ensures runs == old(runs) + [(reply, outcome)] && places == old(places)[reply := Ran(outcome)]
      ensures toProcess == old(toProcess) && ended == old(ended)
    {
      LoggedRun(places, runs, reply, outcome);
      hide Logged;
      places := places[reply := Ran(outcome)];
      runs := runs + [(reply, outcome)];
    }

    method Send(text: string)
      requires Valid()
      modifies this
      ensures Valid() && Advances()
      ensures toProcess == old(toProcess) + [Line(text)] && places == old(places) && runs == old(runs)
                && ended == old(ended)
    {
      toProcess := toProcess + [Line(text)];
    }

    method CloseInput()
      requires Valid()
      modifies this
      ensures Valid() && Advances() && InputClosed()
      ensures places == old(places) && runs == old(runs) && ended == old(ended) && pending == old(pending)
    {
      toProcess := toProcess + [Close];
    }

    /** The process named the session. */
    method Name(inner: string)
      requires Valid()
      modifies this
      ensures Valid() && Advances() && this.inner == inner && toProcess == old(toProcess) && ended == old(ended)
    {
      this.inner := inner;
    }

    // ---------------------------------------------------------------- the relay

    /** The process answered some id: the relay takes what waits under it, if anything does. */
    method Respond(requestId: nat, outcome: Outcome) returns (reply: Option<Reply>)
      requires Valid() && !relayed
      modifies this
      ensures Valid() && Advances()
      ensures reply == if old(pending).Some? && requestId in old(pending).value then Some(old(pending).value[requestId]) else None
      ensures places == if reply.Some? then old(places)[reply.value := Held(outcome, true)] else old(places)
      ensures runs == old(runs) && toProcess == old(toProcess) && ended == old(ended)
    {
      hide Logged;
      reply := None;
      if pending.Some? && requestId in pending.value {
        reply := Some(pending.value[requestId]);
        LoggedMove(places, runs, places[reply.value := Held(outcome, true)]);
        pending := Some(pending.value - {requestId});
        places := places[reply.value := Held(outcome, true)];
      }
    }

    /** The process's output ended: the relay takes everything that waits. */
    method EndOfOutput()
      requires Valid() && !relayed
      modifies this
      ensures Valid() && Advances() && pending.None?
      ensures |places| == |old(places)|
      ensures forall t :: 0 <= t < |places| ==>
                places[t] == if old(places)[t].Waiting? then Held(ENDED, true) else old(places)[t]
      ensures runs == old(runs) && toProcess == old(toProcess) && ended == old(ended)
    {
      pending := None;
      var after := seq(|places|, t requires 0 <= t < |places| reads this => if places[t].Waiting? then Held(ENDED, true) else places[t]);
      LoggedMove(places, runs, after);
      hide Logged;
      places := after;
    }

    /** The relay returns once it ran all it took. */
    method Relayed()
      requires Valid() && pending.None? && RelayIdle(places)
      modifies this
      ensures Valid() && Advances() && relayed && toProcess == old(toProcess) && ended == old(ended)
    {
      relayed := true;
    }

    /** The process exited behind it. */
    method Exited()
      requires Valid() && relayed
      modifies this
      ensures Valid() && Advances() && ended && toProcess == old(toProcess)
    {
      ended := true;
    }

    /** No continuation runs twice. */
    lemma {:induction false} RunsAtMostOnce(k: nat, l: nat)
      requires Valid() && k < |runs| && l < |runs| && runs[k].0 == runs[l].0
      ensures k == l
    {
    }

    /** When the relay has drained and no `ask` is between its steps, every continuation ever
        handed over has run, exactly once. */
    lemma {:induction false} ExactlyOnceWhenDrained(reply: Reply) returns (k: nat)
      requires Valid() && relayed && reply < |places|
      requires forall t :: 0 <= t < |places| ==> !places[t].Reserved? && !(places[t].Held? && !places[t].byRelay)
      ensures k < |runs| && runs[k].0 == reply && forall l :: 0 <= l < |runs| && runs[l].0 == reply ==> l == k
    {
      assert places[reply].Ran?;
      k :| 0 <= k < |runs| && runs[k].0 == reply;
      forall l | 0 <= l < |runs| && runs[l].0 == reply ensures l == k {
        RunsAtMostOnce(k, l);
      }
    }

    /** Nothing asked after the output ended waits. */
    lemma {:induction false} NothingWaitsBehindTheEnd(reply: Reply)
      requires Valid() && pending.None? && reply < |places|
      ensures !places[reply].Waiting?
    {
    }
  }

  // ------------------------------------------------------------------ any interleaving of one session

  /** Some task of the session does its next step. `inputClosed` and `ended` sessions still take
      asks; the relay stops at the end of the output. */
  method SessionStep(s: Session)
    requires s.Valid()
    modifies s
    ensures s.Valid() && s.Advances()
  {
    var choice: nat := *;
    var text: string, outcome: Outcome, requestId: nat, reply: nat := *, *, *, *;
    match choice {
      case 0 => var i, r := s.Reserve();
      case 1 =>
        if reply < |s.places| && s.places[reply] == Reserved(requestId) {
          var refused := s.Register(requestId, reply);
        }
      case 2 =>
        if reply < |s.places| && s.places[reply].Held? && s.places[reply].outcome == outcome {
          s.RunReply(reply, outcome);
        }
      case 3 => s.Send(text);
      case 4 => s.CloseInput();
      case 5 =>
        if !s.relayed {
          var r := s.Respond(requestId, outcome);
        }
      case 6 =>
        if !s.relayed {
          s.EndOfOutput();
        }
      case 7 =>
        if s.pending.None? && RelayIdle(s.places) {
          s.Relayed();
        }
      case _ =>
        if s.relayed {
          s.Exited();
        }
    }
  }

  // ------------------------------------------------------------------ the router

  datatype RouterError = ShuttingDown | OpeningFailed(error: string) | UnknownSession

  /** What a process answered the opening request. */
  datatype Opening = Refused(error: string) | NoSessionId | Opens(inner: string)

  class Router {
    var sessions: map<string, Session>
    /** The processes to close at a shut-down. */
    var started: seq<Session>
    var closing: bool

    /** Every process ever tracked. */
    ghost var tracked: set<Session>
    /** A `shut_down` has returned. */
    ghost var down: bool

    ghost predicate Valid()
      reads this, tracked
    {
      && (forall s :: s in tracked ==> s.Valid())
      && (forall s :: s in started ==> s in tracked)
      && (forall s :: s in tracked && !s.ended ==> s in started)
      && (closing ==> forall s :: s in tracked && !s.ended ==> s.InputClosed())
      && (forall id :: id in sessions ==> sessions[id] in tracked)
      && (down ==> closing && sessions == map[])
    }

    /** No process is forgotten, no input reopens, and a shut-down is for good. */
    twostate predicate Advances()
      reads this, tracked
    {
      && old(tracked) <= tracked && (old(closing) ==> closing) && (old(down) ==> down)
      && forall s :: s in old(tracked) ==> s.Advances()
    }

    constructor ()
      ensures Valid() && fresh(tracked) && !closing && !down
    {
      sessions, started, closing, tracked, down := map[], [], false, {}, false;
    }

    /** `shut_down`, its first half, in one step: no process is accepted any more, and every one
        there is told to close and returned. */
    method BeginShutDown() returns (toWait: seq<Session>)
      requires Valid()
      modifies this, tracked
      ensures Valid() && Advances() && closing && tracked == old(tracked) && down == old(down)
      ensures forall s :: s in toWait ==> s in tracked
      ensures forall s :: s in tracked && !s.ended ==> s in toWait && s.InputClosed()
    {
      hide Session.Valid;
      closing := true;
      var i := 0;
      while i < |started|
        invariant 0 <= i <= |started| && closing
        invariant started == old(started) && tracked == old(tracked) && down == old(down) && sessions == old(sessions)
        invariant forall s :: s in tracked ==> s.Valid() && s.Advances() && s.ended == old(s.ended)
        invariant forall k :: 0 <= k < i ==> started[k].InputClosed()
      {
        var s := started[i];
        assert s in tracked;
        s.CloseInput();
        i := i + 1;
      }
      toWait := started;
    }

    /** `shut_down`, behind it: the map is cleared after `closing` was set. */
    method ClearSessions()
      requires Valid() && closing
      modifies this
      ensures Valid() && Advances() && down && tracked == old(tracked) && closing
    {
      sessions := map[];
      down := true;
    }

    function Live(processes: seq<Session>): (live: seq<Session>)
      reads processes
      ensures forall i :: 0 <= i < |live| ==> live[i] in processes && !live[i].ended
      ensures forall i :: 0 <= i < |processes| && !processes[i].ended ==> processes[i] in live
    {
      if processes == [] then []
      else (if processes[0].ended then [] else [processes[0]]) + Live(processes[1..])
    }

    /** `track`: a process joins the ones to close, or is closed itself. */
    method Track(session: Session) returns (accepted: bool)
      requires Valid() && session !in tracked && session.Valid()
      modifies this, session
      ensures Valid() && Advances() && tracked == old(tracked) + {session}
      ensures accepted <==> !old(closing)
      ensures closing == old(closing) && (!accepted ==> session.InputClosed())
    {
      hide Session.Valid;
      started := Live(started) + [session];
      tracked := tracked + {session};
      if closing {
        session.CloseInput();
      }
      accepted := !closing;
    }

    /** `opened`: whether a session joins the map is decided in one step with whether the router
        shuts down; if it does not, its process is told to close. */
    method Opened(session: Session, id: string, answer: Opening) returns (r: Result<(), RouterError>)
      requires Valid() && session in tracked
      modifies this, session
      ensures Valid() && Advances() && tracked == old(tracked) && closing == old(closing)
      ensures r.Ok? <==> answer.Opens? && !closing
      ensures sessions == if r.Ok? then old(sessions)[id := session] else old(sessions)
      ensures r.Ok? ==> session.inner == answer.inner
      ensures r.Err? ==> session.ended || session.InputClosed()
    {
      hide Session.Valid;
      match answer {
        case Refused(error) =>
          session.CloseInput();
          return Err(OpeningFailed(error));
        case NoSessionId =>
          session.CloseInput();
          return Err(OpeningFailed("the session process answered without a sessionId"));
        case Opens(inner) =>
          session.Name(inner);
          if closing {
            return Err(ShuttingDown);
          }
          sessions := sessions[id := session];
          return Ok(());
      }
    }

    /** `close_session`: no later message finds the session. */
    method CloseSession(id: string) returns (closed: Option<Session>)
      requires Valid()
      modifies this, tracked
      ensures Valid() && Advances() && tracked == old(tracked) && closing == old(closing)
      ensures closed == if id in old(sessions) then Some(old(sessions)[id]) else None
      ensures sessions == old(sessions) - {id}
      ensures closed.Some? ==> closed.value in tracked && closed.value.InputClosed()
    {
      hide Session.Valid;
      if id !in sessions {
        return None;
      }
      var session := sessions[id];
      sessions := sessions - {id};
      session.CloseInput();
      return Some(session);
    }

    /** A task of one session does its next step. */
    method Step(session: Session)
      requires Valid() && session in tracked
      modifies session
      ensures Valid() && Advances()
    {
      ghost var writes := session.toProcess;
      SessionStep(session);
      assert forall w :: w in writes ==> w in session.toProcess;
    }
  }

  /** A process whose tasks have done some steps before it is tracked; it may have exited already. */
  method StartSession(id: string, early: nat) returns (session: Session)
    ensures fresh(session) && session.Valid()
  {
    hide Session.Valid;
    session := new Session(id);
    for i := 0 to early
      invariant fresh(session) && session.Valid()
    {
      SessionStep(session);
    }
  }

  /** Any number of steps of any tasks, in any order. */
  method Interleave(router: Router, steps: nat)
    requires router.Valid()
    modifies router, router.tracked
    ensures router.Valid() && router.Advances() && fresh(router.tracked - old(router.tracked))
  {
    hide Session.Valid;
    var left := steps;
    while left > 0
      invariant router.Valid() && router.Advances() && fresh(router.tracked - old(router.tracked))
    {
      left := left - 1;
      var choice: nat, id: string, answer: Opening, at: nat, early: nat := *, *, *, *, *;
      match choice {
        case 0 =>
          var session := StartSession(id, early);
          var accepted := router.Track(session);
        case 1 => var toWait := router.BeginShutDown();
        case 2 =>
          if router.closing {
            router.ClearSessions();
          }
        case 3 => var closed := router.CloseSession(id);
        case 4 =>
          if at < |router.started| {
            var r := router.Opened(router.started[at], id, answer);
          }
        case _ =>
          if at < |router.started| {
            router.Step(router.started[at]);
          }
      }
    }
  }

  /** Whatever runs before, between the two halves of `shut_down` and after it: the map of
      sessions stays empty, and every process ever tracked, one that was still starting
      included, has ended or been told to close. */
  method ShutDownIsFinal(router: Router, before: nat, between: nat, after: nat) returns (toWait: seq<Session>)
    requires router.Valid()
    modifies router, router.tracked
    ensures router.Valid() && router.sessions == map[] && router.closing
    ensures forall s :: s in router.tracked ==> s.ended || s.InputClosed()
    ensures forall s :: s in toWait ==> s in router.tracked
    ensures forall s :: s in old(router.tracked) ==> s in router.tracked && (s in toWait || s.ended)
  {
    Interleave(router, before);
    ghost var tracked := router.tracked;
    toWait := router.BeginShutDown();
    label Closed:
    Interleave(router, between);
    router.ClearSessions();
    label Down:
    Interleave(router, after);
  }
}
