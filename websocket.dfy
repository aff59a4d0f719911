/**
 * The WebSocket connection registry of `core/websocket.py`. A socket is identified with its
 * connection id: `activeConnections` is the key set of `active_connections`, whether a send
 * on a socket succeeds is decided by the message (`Serialisable`) and the `alive` set passed
 * in, and what each socket has been sent so far is the per-connection `delivered` log.
 * Message timestamps are not modelled.
 */
module Websocket {
  import opened Wrappers
  import opened Models

  /** The payload of an `analysis_complete` message. */
  datatype Results =
    | IntentResults(intent: IntentResult)
    | PatternResults(patternReport: PatternReport)
    | LeadResults(leadReport: LeadReport)

  /** The messages the server sends, one constructor per `type`. */
  datatype Message =
    | ConnectionEstablished(sessionId: string, connectionId: string)
    | ProgressUpdate(step: string, progress: real, text: string)
    | PatternDiscovered(pattern: Pattern)
    | LeadFound(lead: LeadAnalysis)
    | AnalysisComplete(analysisType: string, results: Results)
    | Error(errorType: string, text: string)
    | Pong
    | SubscriptionConfirmed(events: Json)

  /** The `type` field each message carries. */
  function Kind(m: Message): string {
    match m
    case ConnectionEstablished(_, _) => "connection_established"
    case ProgressUpdate(_, _, _) => "progress_update"
    case PatternDiscovered(_) => "pattern_discovered"
    case LeadFound(_) => "lead_found"
    case AnalysisComplete(_, _) => "analysis_complete"
    case Error(_, _) => "error"
    case Pong => "pong"
    case SubscriptionConfirmed(_) => "subscription_confirmed"
  }

  /** The eight message types are told apart by their `type` field alone. */
  lemma KindsDistinct(a: Message, b: Message)
    requires Kind(a) == Kind(b)
    ensures a.ConnectionEstablished? <==> b.ConnectionEstablished?
    ensures a.ProgressUpdate? <==> b.ProgressUpdate?
    ensures a.PatternDiscovered? <==> b.PatternDiscovered?
    ensures a.LeadFound? <==> b.LeadFound?
    ensures a.AnalysisComplete? <==> b.AnalysisComplete?
    ensures a.Error? <==> b.Error?
    ensures a.Pong? <==> b.Pong?
    ensures a.SubscriptionConfirmed? <==> b.SubscriptionConfirmed?
  {
  }

  /** The error type `send_error` uses when its caller gives none. */
  const GeneralError := "general"

  /** Everything the manager holds, as a value. */
  datatype Registry = Registry(
    active: set<string>,
    sessions: map<string, seq<string>>,
    delivered: map<string, seq<Message>>)

  /** No session entry is left with an empty list. */
  predicate NoEmptyLists(reg: Registry) {
    forall s :: s in reg.sessions ==> reg.sessions[s] != []
  }

  /** What connection `c` has received so far. */
  function Log(d: map<string, seq<Message>>, c: string): seq<Message> {
    if c in d then d[c] else []
  }

  /** `d` with `m` delivered once more to `c`. */
  function Append(d: map<string, seq<Message>>, c: string, m: Message): (r: map<string, seq<Message>>)
    ensures Log(r, c) == Log(d, c) + [m]
    ensures forall x :: x != c ==> Log(r, x) == Log(d, x)
  {
    d[c := Log(d, c) + [m]]
  }

  /** Python `list.remove(x)` when `x` is present: the first occurrence goes. */
  function RemoveFirst(xs: seq<string>, x: string): (r: seq<string>)
    ensures x in xs ==> |r| == |xs| - 1
    ensures x !in xs ==> r == xs
  {
    if xs == [] then []
    else
      assert xs == [xs[0]] + xs[1..];
      if xs[0] == x then xs[1..] else [xs[0]] + RemoveFirst(xs[1..], x)
  }

  /** The index of the first occurrence of `x` in `xs`. */
  function FirstIndex(xs: seq<string>, x: string): (i: nat)
    requires x in xs
    ensures i < |xs| && xs[i] == x && x !in xs[..i]
  {
    if xs[0] == x then 0
    else
      assert x in xs[1..] by {
        var k :| 0 <= k < |xs| && xs[k] == x;
        assert xs[1..][k - 1] == x;
      }
      var j := FirstIndex(xs[1..], x);
      assert xs[..j + 1] == [xs[0]] + xs[1..][..j];
      j + 1
  }

  /** `remove` takes out the first occurrence of `x` and nothing else. */
  lemma {:induction false} RemoveFirstSplits(xs: seq<string>, x: string)
    requires x in xs
    ensures RemoveFirst(xs, x) == xs[..FirstIndex(xs, x)] + xs[FirstIndex(xs, x) + 1..]
  {
    var i := FirstIndex(xs, x);
    if xs[0] != x {
      assert x in xs[1..] by {
        assert xs[1..][i - 1] == x;
      }
      RemoveFirstSplits(xs[1..], x);
      assert xs[1..][..i - 1] == xs[1..i];
      assert xs[..i] == [xs[0]] + xs[1..i];
    }
  }

  /** So `remove` takes away one occurrence of `x` and keeps every other element. */
  lemma RemoveFirstMultiset(xs: seq<string>, x: string)
    requires x in xs
    ensures multiset(RemoveFirst(xs, x)) == multiset(xs) - multiset{x}
  {
    var i := FirstIndex(xs, x);
    RemoveFirstSplits(xs, x);
    assert xs == xs[..i] + [x] + xs[i + 1..];
  }

  lemma {:induction false} RemoveFirstAppended(xs: seq<string>, x: string)
    requires x !in xs
    ensures RemoveFirst(xs + [x], x) == xs
  {
    if xs != [] {
      RemoveFirstAppended(xs[1..], x);
      assert (xs + [x])[1..] == xs[1..] + [x];
    }
  }

  /** `connect`'s bookkeeping: `c` becomes active and joins the end of its session's list. */
  function RegisterSpec(reg: Registry, c: string, s: string): (r: Registry)
    ensures c in r.active && s in r.sessions
    ensures r.sessions[s] == (if s in reg.sessions then reg.sessions[s] else []) + [c]
    ensures r.active == reg.active + {c} && r.delivered == reg.delivered
    ensures forall t :: t != s ==> (t in r.sessions <==> t in reg.sessions)
    ensures forall t :: t != s && t in reg.sessions ==> r.sessions[t] == reg.sessions[t]
  {
    var l := if s in reg.sessions then reg.sessions[s] else [];
    reg.(active := reg.active + {c}, sessions := reg.sessions[s := l + [c]])
  }

  /**
   * `disconnect(c, s)`: `c` is no longer active, its first occurrence leaves the list of `s`,
   * and an entry left empty is deleted; other sessions and the logs are untouched.
   */
  function DisconnectSpec(reg: Registry, c: string, s: string): (r: Registry)
    ensures r.active == reg.active - {c} && r.delivered == reg.delivered
    ensures s !in reg.sessions ==> r.sessions == reg.sessions
    ensures forall t :: t != s ==> (t in r.sessions <==> t in reg.sessions)
    ensures forall t :: t != s && t in reg.sessions ==> r.sessions[t] == reg.sessions[t]
    ensures s in reg.sessions ==>
              var l := RemoveFirst(reg.sessions[s], c);
              && (l == [] ==> s !in r.sessions)
              && (l != [] ==> s in r.sessions && r.sessions[s] == l)
    ensures NoEmptyLists(reg) ==> NoEmptyLists(r)
  {
    if s !in reg.sessions then reg.(active := reg.active - {c})
    else
      var l := RemoveFirst(reg.sessions[s], c);
      reg.(active := reg.active - {c}, sessions := if l == [] then reg.sessions - {s} else reg.sessions[s := l])
  }

  /** Registering a new connection and then disconnecting it leaves the registry as it was. */
  lemma RegisterThenDisconnect(reg: Registry, c: string, s: string)
    requires c !in reg.active
    requires s in reg.sessions ==> c !in reg.sessions[s]
    requires NoEmptyLists(reg)
    ensures DisconnectSpec(RegisterSpec(reg, c, s), c, s) == reg
  {
    var l := if s in reg.sessions then reg.sessions[s] else [];
    var r1 := reg.(active := reg.active + {c}, sessions := reg.sessions[s := l + [c]]);
    assert RegisterSpec(reg, c, s) == r1;
    RemoveFirstAppended(l, c);
    assert r1.active - {c} == reg.active;
    if s in reg.sessions {
      assert r1.sessions[s := l] == reg.sessions;
      assert DisconnectSpec(r1, c, s) == reg.(sessions := r1.sessions[s := l]);
    } else {
      assert r1.sessions - {s} == reg.sessions;
      assert DisconnectSpec(r1, c, s) == reg.(sessions := r1.sessions - {s});
    }
  }

  /** Disconnecting an id the registry does not know changes nothing, so a second disconnect is a no-op. */
  lemma DisconnectUnknown(reg: Registry, c: string, s: string)
    requires c !in reg.active
    requires s in reg.sessions ==> c !in reg.sessions[s]
    requires NoEmptyLists(reg)
    ensures DisconnectSpec(reg, c, s) == reg
  {
  }

  /**
   * Whether `json.dumps` accepts the message. Every `analysis_complete` the tasks send
   * carries a pydantic `.dict()` dump, which keeps `datetime` fields (`extracted_at`,
   * `generated_at`, `discovered_at`); `json.dumps` raises `TypeError` on those. All other
   * messages hold only strings, numbers, lists and dictionaries.
   */
  predicate Serialisable(m: Message) {
    !m.AnalysisComplete?
  }

  /**
   * The ids whose send succeeds: the serialisation sits inside the same `try` as the socket
   * send, so a message that does not serialise fails on every connection, live or not.
   */
  function Reachable(alive: set<string>, m: Message): (r: set<string>)
    ensures r <= alive
    ensures Serialisable(m) ==> r == alive
    ensures !Serialisable(m) ==> r == {}
  {
    if Serialisable(m) then alive else {}
  }

  /** The logs after the send loop: each listed id that is active and alive gets `m`, in list order. */
  function DeliverAll(d: map<string, seq<Message>>, ids: seq<string>, active: set<string>, alive: set<string>,
                      m: Message): map<string, seq<Message>>
  {
    if ids == [] then d
    else
      var before := DeliverAll(d, ids[..|ids| - 1], active, alive, m);
      var c := ids[|ids| - 1];
      if c in active && c in alive then Append(before, c, m) else before
  }

  /** The ids the send loop collects as disconnected, in list order. */
  function FailedIds(ids: seq<string>, active: set<string>, alive: set<string>): seq<string> {
    if ids == [] then []
    else
      var c := ids[|ids| - 1];
      FailedIds(ids[..|ids| - 1], active, alive) + (if c in active && c !in alive then [c] else [])
  }

  /** The collected ids are exactly the listed ids that are active and not alive. */
  lemma {:induction false} FailedIdsMembers(ids: seq<string>, active: set<string>, alive: set<string>)
    ensures forall x :: x in FailedIds(ids, active, alive) <==> x in ids && x in active && x !in alive
  {
    if ids != [] {
      var front := ids[..|ids| - 1];
      FailedIdsMembers(front, active, alive);
      assert ids == front + [ids[|ids| - 1]];
    }
  }

  /** The ids listed under `s`, the empty list when there is no entry. */
  function ListOf(reg: Registry, s: string): seq<string> {
    if s in reg.sessions then reg.sessions[s] else []
  }

  /** A disconnect takes one listing of `c` off the list of `s`, if there is one. */
  lemma DisconnectListMultiset(reg: Registry, c: string, s: string)
    ensures multiset(ListOf(DisconnectSpec(reg, c, s), s)) == multiset(ListOf(reg, s)) - multiset{c}
  {
    if s in reg.sessions {
      var l := reg.sessions[s];
      if c in l {
        RemoveFirstMultiset(l, c);
      } else {
        assert multiset(l)[c] == 0;
        assert multiset(l) - multiset{c} == multiset(l);
      }
    }
  }

  /** The send loop collects each active, dead id once for each time it is listed. */
  lemma {:induction false} FailedIdsMultiset(ids: seq<string>, active: set<string>, alive: set<string>, c: string)
    ensures multiset(FailedIds(ids, active, alive))[c] == if c in active && c !in alive then multiset(ids)[c] else 0
  {
    if ids != [] {
      var front := ids[..|ids| - 1];
      FailedIdsMultiset(front, active, alive, c);
      assert ids == front + [ids[|ids| - 1]];
    }
  }

  /** The cleanup loop: `disconnect(c, s)` for each collected id in turn. */
  function DisconnectAll(reg: Registry, failed: seq<string>, s: string): Registry {
    if failed == [] then reg
    else DisconnectSpec(DisconnectAll(reg, failed[..|failed| - 1], s), failed[|failed| - 1], s)
  }

  /** `send_message_to_session(s, m)`: nothing for an unknown session; otherwise deliver, then prune. */
  function SendSpec(reg: Registry, s: string, alive: set<string>, m: Message): Registry {
    if s !in reg.sessions then reg
    else
      var ids := reg.sessions[s];
      var ok := Reachable(alive, m);
      var sent := reg.(delivered := DeliverAll(reg.delivered, ids, reg.active, ok, m));
      DisconnectAll(sent, FailedIds(ids, reg.active, ok), s)
  }

  /** How many times `c` is listed in `ids`. */
  function Count(ids: seq<string>, c: string): (n: nat)
    ensures n <= |ids|
    ensures n == 0 <==> c !in ids
  {
    if ids == [] then 0
    else
      assert ids == ids[..|ids| - 1] + [ids[|ids| - 1]];
      Count(ids[..|ids| - 1], c) + (if ids[|ids| - 1] == c then 1 else 0)
  }

  /** `m` repeated `n` times. */
  function Repeat(m: Message, n: nat): (r: seq<Message>)
    ensures |r| == n && forall k :: 0 <= k < n ==> r[k] == m
  {
    if n == 0 then [] else Repeat(m, n - 1) + [m]
  }

  /**
   * Delivery: an id that is active and alive receives `m` once for every time it is listed;
   * any other id, listed or not, receives nothing.
   */
  lemma {:induction false} DeliverAllLogs(d: map<string, seq<Message>>, ids: seq<string>, active: set<string>,
                                          alive: set<string>, m: Message, c: string)
    ensures c in active && c in alive ==>
              Log(DeliverAll(d, ids, active, alive, m), c) == Log(d, c) + Repeat(m, Count(ids, c))
    ensures !(c in active && c in alive) ==> Log(DeliverAll(d, ids, active, alive, m), c) == Log(d, c)
  {
    if ids != [] {
      var front := ids[..|ids| - 1];
      var x := ids[|ids| - 1];
      DeliverAllLogs(d, front, active, alive, m, c);
      var before := DeliverAll(d, front, active, alive, m);
      assert Count(ids, c) == Count(front, c) + (if x == c then 1 else 0);
      if x in active && x in alive {
        assert DeliverAll(d, ids, active, alive, m) == Append(before, x, m);
        if x == c {
          assert Repeat(m, Count(ids, c)) == Repeat(m, Count(front, c)) + [m];
        }
      } else {
        assert DeliverAll(d, ids, active, alive, m) == before;
      }
    }
  }

  /** The cleanup loop deactivates exactly the collected ids and never touches the logs. */
  lemma {:induction false} DisconnectAllActive(reg: Registry, failed: seq<string>, s: string)
    ensures DisconnectAll(reg, failed, s).active == reg.active - set x | x in failed
    ensures DisconnectAll(reg, failed, s).delivered == reg.delivered
    ensures forall t :: t != s ==> (t in DisconnectAll(reg, failed, s).sessions <==> t in reg.sessions)
    ensures forall t :: t != s && t in reg.sessions ==> DisconnectAll(reg, failed, s).sessions[t] == reg.sessions[t]
    ensures NoEmptyLists(reg) ==> NoEmptyLists(DisconnectAll(reg, failed, s))
  {
    if failed != [] {
      var front := failed[..|failed| - 1];
      DisconnectAllActive(reg, front, s);
      assert failed == front + [failed[|failed| - 1]];
      assert (set x | x in failed) == (set x | x in front) + {failed[|failed| - 1]};
    }
  }

  /** The cleanup loop takes one listing off the list of `s` for each collected id. */
  lemma {:induction false} DisconnectAllMultiset(reg: Registry, failed: seq<string>, s: string)
    ensures multiset(ListOf(DisconnectAll(reg, failed, s), s)) == multiset(ListOf(reg, s)) - multiset(failed)
  {
    if failed != [] {
      var front := failed[..|failed| - 1];
      var x := failed[|failed| - 1];
      DisconnectAllMultiset(reg, front, s);
      DisconnectListMultiset(DisconnectAll(reg, front, s), x, s);
      assert failed == front + [x];
      assert multiset(failed) == multiset(front) + multiset{x};
    }
  }

  /**
   * One send, end to end: the session's reachable connections (live, and the message
   * serialises) each get `m` once per listing, everything else gets nothing; the others
   * that are active are no longer active, the reachable ones stay active, and no other
   * session's list changes.
   */
  lemma SendSpecEffect(reg: Registry, s: string, alive: set<string>, m: Message, c: string)
    requires s in reg.sessions
    ensures var r := SendSpec(reg, s, alive, m);
            var ids := reg.sessions[s];
            var ok := Reachable(alive, m);
            && (c in reg.active && c in ok ==> Log(r.delivered, c) == Log(reg.delivered, c) + Repeat(m, Count(ids, c)))
            && (!(c in reg.active && c in ok) ==> Log(r.delivered, c) == Log(reg.delivered, c))
            && (c in ids && c in reg.active && c !in ok ==> c !in r.active)
            && (c in reg.active && (c in ok || c !in ids) ==> c in r.active)
            && multiset(ListOf(r, s))[c] == (if c in reg.active && c !in ok then 0 else multiset(ids)[c])
            && (forall t :: t != s ==> (t in r.sessions <==> t in reg.sessions))
            && (forall t :: t != s && t in reg.sessions ==> r.sessions[t] == reg.sessions[t])
  {
    var ids := reg.sessions[s];
    var ok := Reachable(alive, m);
    var sent := reg.(delivered := DeliverAll(reg.delivered, ids, reg.active, ok, m));
    var failed := FailedIds(ids, reg.active, ok);
    DeliverAllLogs(reg.delivered, ids, reg.active, ok, m, c);
    FailedIdsMembers(ids, reg.active, ok);
    DisconnectAllActive(sent, failed, s);
    FailedIdsMultiset(ids, reg.active, ok, c);
    DisconnectAllMultiset(sent, failed, s);
  }

  /**
   * An `analysis_complete` reaches nobody: no log grows, and when every connection listed
   * for the session is active (as `connect` leaves them), all of them are dropped and the
   * session's entry is gone, so any later send to the session does nothing.
   */
  lemma {:induction false} AnalysisCompleteDropsSession(reg: Registry, s: string, alive: set<string>, kind: string,
                                                        results: Results, later: Message, alive2: set<string>)
    requires s in reg.sessions && NoEmptyLists(reg)
    requires forall c :: c in reg.sessions[s] ==> c in reg.active
    ensures var r := SendSpec(reg, s, alive, AnalysisComplete(kind, results));
            && r.delivered == reg.delivered
            && s !in r.sessions
            && (forall c :: c in reg.sessions[s] ==> c !in r.active)
            && SendSpec(r, s, alive2, later) == r
  {
    var m := AnalysisComplete(kind, results);
    var ids := reg.sessions[s];
    var r := SendSpec(reg, s, alive, m);
    var sent := reg.(delivered := DeliverAll(reg.delivered, ids, reg.active, {}, m));
    var failed := FailedIds(ids, reg.active, {});
    DisconnectAllActive(sent, failed, s);
    DeliverAllNone(reg.delivered, ids, reg.active, m);
    forall c | c in ids
      ensures c !in r.active
    {
      SendSpecEffect(reg, s, alive, m, c);
    }
    forall c
      ensures multiset(ListOf(r, s))[c] == 0
    {
      SendSpecEffect(reg, s, alive, m, c);
      if c !in ids {
        assert multiset(ids)[c] == 0;
      }
    }
    assert multiset(ListOf(r, s)) == multiset{};
    assert |ListOf(r, s)| == |multiset(ListOf(r, s))| == 0;
  }

  /** An `analysis_complete` adds nothing to any log, whatever the session's connections. */
  lemma AnalysisCompleteDeliversNothing(reg: Registry, s: string, alive: set<string>, kind: string, results: Results)
    ensures SendSpec(reg, s, alive, AnalysisComplete(kind, results)).delivered == reg.delivered
  {
    if s in reg.sessions {
      var m := AnalysisComplete(kind, results);
      var ids := reg.sessions[s];
      var sent := reg.(delivered := DeliverAll(reg.delivered, ids, reg.active, {}, m));
      DeliverAllNone(reg.delivered, ids, reg.active, m);
      DisconnectAllActive(sent, FailedIds(ids, reg.active, {}), s);
    }
  }

  /** With no reachable id the send loop leaves every log as it was. */
  lemma {:induction false} DeliverAllNone(d: map<string, seq<Message>>, ids: seq<string>, active: set<string>,
                                          m: Message)
    ensures DeliverAll(d, ids, active, {}, m) == d
  {
    if ids != [] {
      DeliverAllNone(d, ids[..|ids| - 1], active, m);
    }
  }

  /** A client frame after decoding: a JSON value, a frame that did not decode, or the close. */
  datatype ClientEvent =
    | Text(message: Json)
    | Undecodable(error: string)
    | Closed

  /**
   * The endpoint's answer to one decoded object: `pong` to a ping, `subscription_confirmed`
   * echoing `events` (an empty list when absent) to a subscribe, and nothing otherwise.
   */
  function Dispatch(fields: map<string, Json>): (r: Option<Message>)
    ensures r == Some(Pong) <==> "type" in fields && fields["type"] == JStr("ping")
    ensures r.Some? && r.value.SubscriptionConfirmed? <==> "type" in fields && fields["type"] == JStr("subscribe")
    ensures r.Some? && r.value.SubscriptionConfirmed? ==>
              r.value.events == (if "events" in fields then fields["events"] else JArr([]))
    ensures r.Some? ==> r.value.Pong? || r.value.SubscriptionConfirmed?
  {
    if "type" in fields && fields["type"] == JStr("ping") then Some(Pong)
    else if "type" in fields && fields["type"] == JStr("subscribe") then
      Some(SubscriptionConfirmed(if "events" in fields then fields["events"] else JArr([])))
    else None
  }

  /** The error reported before the endpoint drops a connection on an unexpected exception. */
  function EndpointError(detail: string): Message {
    Error("websocket_error", "WebSocket error: " + detail)
  }

  /** The detail of the exception one client event raises, if it raises one other than the close. */
  function EventFailure(ev: ClientEvent): Option<string> {
    match ev
    case Undecodable(e) => Some(e)
    case Text(JObj(_)) => None
    case Text(j) => Some("'" + JsonTypeName(j) + "' object has no attribute 'get'")
    case Closed => None
  }

  /** The registry after the endpoint has handled the events in order, stopping at the first that ends it. */
  function EndpointSpec(reg: Registry, s: string, c: string, events: seq<ClientEvent>, alive: set<string>): Registry
    decreases |events|
  {
    if events == [] then reg
    else
      var ev := events[0];
      if ev.Closed? then DisconnectSpec(reg, c, s)
      else if EventFailure(ev).Some? then DisconnectSpec(SendSpec(reg, s, alive, EndpointError(EventFailure(ev).value)), c, s)
      else
        var reply := Dispatch(ev.message.fields);
        EndpointSpec(if reply.Some? then SendSpec(reg, s, alive, reply.value) else reg, s, c, events[1..], alive)
  }

  /** An endpoint run that ends with the close leaves its own connection inactive. */
  lemma {:induction false} EndpointClosesOwnConnection(reg: Registry, s: string, c: string, events: seq<ClientEvent>,
                                                       alive: set<string>)
    requires Closed in events
    ensures c !in EndpointSpec(reg, s, c, events, alive).active
    decreases |events|
  {
    if !events[0].Closed? && EventFailure(events[0]).None? {
      assert Closed in events[1..] by {
        var k :| 0 <= k < |events| && events[k] == Closed;
        assert k != 0;
        assert events[1..][k - 1] == Closed;
      }
      var reply := Dispatch(events[0].message.fields);
      EndpointClosesOwnConnection(if reply.Some? then SendSpec(reg, s, alive, reply.value) else reg, s, c,
                                  events[1..], alive);
    }
  }

  /** `ConnectionManager`: the two dictionaries, plus what each socket has been sent. */
  class ConnectionManager {
    var activeConnections: set<string>
    var sessionConnections: map<string, seq<string>>
    var delivered: map<string, seq<Message>>

    function State(): Registry
      reads this
    {
      Registry(activeConnections, sessionConnections, delivered)
    }

    ghost predicate Valid()
      reads this
    {
      NoEmptyLists(State())
    }

    constructor ()
      ensures Valid() && State() == Registry({}, map[], map[])
    {
      activeConnections := {};
      sessionConnections := map[];
      delivered := map[];
    }

    /** `connect`: registers `"{s}_{stamp}"`, then announces it to every connection of the session. */
    method Connect(s: string, stamp: string, alive: set<string>) returns (c: string)
      requires Valid()
      modifies this
      ensures Valid()
      ensures c == s + "_" + stamp
      ensures State() == SendSpec(RegisterSpec(old(State()), c, s), s, alive, ConnectionEstablished(s, c))
    {
      c := s + "_" + stamp;
      activeConnections := activeConnections + {c};
      if s !in sessionConnections {
        sessionConnections := sessionConnections[s := []];
      }
      sessionConnections := sessionConnections[s := sessionConnections[s] + [c]];
      assert State() == RegisterSpec(old(State()), c, s);
      SendMessageToSession(s, ConnectionEstablished(s, c), alive);
    }

    /** `disconnect`: safe to call for an id that is already gone. */
    method Disconnect(c: string, s: string)
      requires Valid()
      modifies this
      ensures Valid()
      ensures State() == DisconnectSpec(old(State()), c, s)
    {
      if c in activeConnections {
        activeConnections := activeConnections - {c};
      }
      if s in sessionConnections {
        var l := sessionConnections[s];
        if c in l {
          l := RemoveFirst(l, c);
        }
        if l == [] {
          sessionConnections := sessionConnections - {s};
        } else {
          sessionConnections := sessionConnections[s := l];
        }
      }
    }

    /**
     * `send_message_to_session`: sends to each listed active id in list order, collecting
     * the ids whose send fails, then disconnects each of those.
     */
    method SendMessageToSession(s: string, m: Message, alive: set<string>)
      requires Valid()
      modifies this
      ensures Valid()
      ensures State() == SendSpec(old(State()), s, alive, m)
    {
      if s in sessionConnections {
        var failed := SendToEach(sessionConnections[s], m, alive);
        DisconnectEach(failed, s);
      }
    }

    /** The first loop: deliver to the reachable ones among `ids`, return the active others. */
    method SendToEach(ids: seq<string>, m: Message, alive: set<string>) returns (failed: seq<string>)
      modifies this
      ensures activeConnections == old(activeConnections) && sessionConnections == old(sessionConnections)
      ensures delivered == DeliverAll(old(delivered), ids, activeConnections, Reachable(alive, m), m)
      ensures failed == FailedIds(ids, activeConnections, Reachable(alive, m))
    {
      failed := [];
      var i := 0;
      while i < |ids|
        invariant 0 <= i <= |ids|
        invariant activeConnections == old(activeConnections) && sessionConnections == old(sessionConnections)
        invariant delivered == DeliverAll(old(delivered), ids[..i], activeConnections, Reachable(alive, m), m)
        invariant failed == FailedIds(ids[..i], activeConnections, Reachable(alive, m))
      {
        var c := ids[i];
        assert ids[..i + 1][..i] == ids[..i];
        if c in activeConnections {
          if Serialisable(m) && c in alive {
            delivered := Append(delivered, c, m);
          } else {
            failed := failed + [c];
          }
        }
        i := i + 1;
      }
      assert ids[..|ids|] == ids;
    }

    /** The second loop: `disconnect(c, s)` for each collected id. */
    method DisconnectEach(failed: seq<string>, s: string)
      requires Valid()
      modifies this
      ensures Valid()
      ensures State() == DisconnectAll(old(State()), failed, s)
    {
      var j := 0;
      while j < |failed|
        invariant 0 <= j <= |failed|
        invariant Valid()
        invariant State() == DisconnectAll(old(State()), failed[..j], s)
      {
        assert failed[..j + 1][..j] == failed[..j];
        Disconnect(failed[j], s);
        j := j + 1;
      }
      assert failed[..|failed|] == failed;
    }

    method SendProgressUpdate(s: string, step: string, progress: real, text: string, alive: set<string>)
      requires Valid()
      modifies this
      ensures Valid() && State() == SendSpec(old(State()), s, alive, ProgressUpdate(step, progress, text))
    {
      SendMessageToSession(s, ProgressUpdate(step, progress, text), alive);
    }

    method SendPatternDiscovered(s: string, pattern: Pattern, alive: set<string>)
      requires Valid()
      modifies this
      ensures Valid() && State() == SendSpec(old(State()), s, alive, PatternDiscovered(pattern))
    {
      SendMessageToSession(s, PatternDiscovered(pattern), alive);
    }

    method SendLeadFound(s: string, lead: LeadAnalysis, alive: set<string>)
      requires Valid()
      modifies this
      ensures Valid() && State() == SendSpec(old(State()), s, alive, LeadFound(lead))
    {
      SendMessageToSession(s, LeadFound(lead), alive);
    }

    method SendAnalysisComplete(s: string, analysisType: string, results: Results, alive: set<string>)
      requires Valid()
      modifies this
      ensures Valid() && State() == SendSpec(old(State()), s, alive, AnalysisComplete(analysisType, results))
      ensures delivered == old(delivered)
      ensures old(s in sessionConnections && forall c :: c in sessionConnections[s] ==> c in activeConnections) ==>
                s !in sessionConnections
    {
      AnalysisCompleteDeliversNothing(State(), s, alive, analysisType, results);
      if s in sessionConnections && forall c :: c in sessionConnections[s] ==> c in activeConnections {
        AnalysisCompleteDropsSession(State(), s, alive, analysisType, results, Pong, {});
      }
      SendMessageToSession(s, AnalysisComplete(analysisType, results), alive);
    }

    /** `send_error`; callers that give no error type pass `GeneralError`. */
    method SendError(s: string, text: string, errorType: string, alive: set<string>)
      requires Valid()
      modifies this
      ensures Valid() && State() == SendSpec(old(State()), s, alive, Error(errorType, text))
    {
      SendMessageToSession(s, Error(errorType, text), alive);
    }

    /**
     * `websocket_endpoint` over a finite run of client events: connect, then answer each
     * event until the close or an exception ends the connection.
     */
    method RunEndpoint(s: string, stamp: string, events: seq<ClientEvent>, alive: set<string>) returns (c: string)
      requires Valid()
      modifies this
      ensures Valid() && c == s + "_" + stamp
      ensures State() == EndpointSpec(SendSpec(RegisterSpec(old(State()), c, s), s, alive, ConnectionEstablished(s, c)),
                                       s, c, events, alive)
    {
      c := Connect(s, stamp, alive);
      var i := 0;
      var open := true;
      ghost var target := EndpointSpec(State(), s, c, events, alive);
      while open && i < |events|
        invariant 0 <= i <= |events| && Valid()
        invariant open ==> EndpointSpec(State(), s, c, events[i..], alive) == target
        invariant !open ==> State() == target
        decreases (if open then 1 else 0) + |events| - i
      {
        var ev := events[i];
        assert events[i..][0] == ev && events[i..][1..] == events[i + 1..];
        var failure := EventFailure(ev);
        if ev.Closed? {
          Disconnect(c, s);
          open := false;
        } else if failure.Some? {
          SendError(s, "WebSocket error: " + failure.value, "websocket_error", alive);
          Disconnect(c, s);
          open := false;
        } else {
          var reply := Dispatch(ev.message.fields);
          if reply.Some? {
            SendMessageToSession(s, reply.value, alive);
          }
          i := i + 1;
        }
      }
    }
  }
}
