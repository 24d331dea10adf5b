/** The two event streams of the HTTP API: the task stream that runs an
    agent and relays its events, and the session subscription stream that
    starts from a state snapshot. The agent's event stream, the waits on it
    and the snapshot contents are parameters. */
module RouteStreams {
  import opened Util
  import opened ServerSentEvents
  import opened JsonText
  import opened SessionManager

  lemma PrintableLine(s: string)
    requires Printable(s)
    ensures forall i | 0 <= i < |s| :: !IsBreak(s[i])
  {
  }

  /** `json.dumps` of a hand-built dictionary, as one line of the stream. */
  function Dumps(ms: seq<(string, JsonText.Value)>): (j: Line)
    requires RawPrintable(ms)
    ensures Printable(j)
  {
    ObjectPrintable(ms);
    PrintableLine(JsonObject(ms));
    JsonObject(ms)
  }


  // ------------------------------------------------------------ task stream

  const SessionCreated: Line := "SESSION_CREATED"
  const RunError: Line := "RUN_ERROR"
  const StateSnapshot: Line := "STATE_SNAPSHOT"
  const HeartbeatEvent: Line := "HEARTBEAT"

  /** The first frame of a task stream. */
  function CreatedChunk(sessionId: string): Chunk {
    EventChunk(SessionCreated, Dumps([("type", Str("SESSION_CREATED")), ("session_id", Str(sessionId)),
                                      ("timestamp", Str(""))]))
  }

  /** The frame sent when the task stream fails. */
  function ErrorChunk(sessionId: string, message: string): Chunk {
    EventChunk(RunError, Dumps([("type", Str("RUN_ERROR")), ("message", Str(message)),
                                ("session_id", Str(sessionId)), ("timestamp", Str(""))]))
  }

  /** One wait on the agent's event stream: an event arrived (already
      framed by its `to_sse`), fifteen seconds passed with nothing, or the
      agent, or the persistence of the event, raised. The stream ends when
      the waits run out. */
  datatype Pull = Delivered(name: Line, json: Line) | Quiet | Raised(message: string)

  /** The relaying loop as written. A timeout of `wait_for` cancels the
      pending `__anext__`, and cancelling it closes the agent's async
      generator, so the heartbeat is followed by `StopAsyncIteration` on the
      next wait: the first quiet wait ends the stream. */
  function TaskLoop(sessionId: string, pulls: seq<Pull>): seq<Chunk>
    decreases |pulls|
  {
    if |pulls| == 0 then []
    else
      match pulls[0]
      case Delivered(n, j) => [EventChunk(n, j)] + TaskLoop(sessionId, pulls[1..])
      case Quiet => [HeartbeatChunk]
      case Raised(m) => [ErrorChunk(sessionId, m)]
  }

  /** The relaying loop as the heartbeat is meant to work: a quiet wait
      sends a heartbeat and the agent's stream goes on. */
  function ResumingLoop(sessionId: string, pulls: seq<Pull>): seq<Chunk>
    decreases |pulls|
  {
    if |pulls| == 0 then []
    else
      match pulls[0]
      case Delivered(n, j) => [EventChunk(n, j)] + ResumingLoop(sessionId, pulls[1..])
      case Quiet => [HeartbeatChunk] + ResumingLoop(sessionId, pulls[1..])
      case Raised(m) => [ErrorChunk(sessionId, m)]
  }

  /** `execute_task_stream`'s generator. */
  function TaskStream(sessionId: string, pulls: seq<Pull>): (cs: seq<Chunk>)
    ensures |cs| >= 1 && cs[0] == CreatedChunk(sessionId)
  {
    [CreatedChunk(sessionId)] + TaskLoop(sessionId, pulls)
  }

  /** The generator with a heartbeat that does not end the stream. */
  function ResumingTaskStream(sessionId: string, pulls: seq<Pull>): (cs: seq<Chunk>)
    ensures |cs| >= 1 && cs[0] == CreatedChunk(sessionId)
  {
    [CreatedChunk(sessionId)] + ResumingLoop(sessionId, pulls)
  }

  /** The waits before the first quiet one. */
  function UntilQuiet(pulls: seq<Pull>): (r: seq<Pull>)
    ensures |r| <= |pulls| && r == pulls[..|r|]
    ensures forall i :: 0 <= i < |r| ==> !r[i].Quiet?
    ensures |r| < |pulls| ==> pulls[|r|].Quiet?
    decreases |pulls|
  {
    if |pulls| == 0 || pulls[0].Quiet? then []
    else [pulls[0]] + UntilQuiet(pulls[1..])
  }

  /** As written, the first heartbeat is the last frame: whatever the agent
      would deliver after the first quiet wait never reaches the client. */
  lemma {:induction false} HeartbeatEndsStream(sessionId: string, before: seq<Pull>, after: seq<Pull>)
    requires forall i :: 0 <= i < |before| ==> before[i].Delivered?
    ensures TaskLoop(sessionId, before + [Quiet] + after) == TaskLoop(sessionId, before) + [HeartbeatChunk]
    decreases |before|
  {
    if |before| > 0 {
      assert (before + [Quiet] + after)[1..] == before[1..] + [Quiet] + after;
      HeartbeatEndsStream(sessionId, before[1..], after);
    } else {
      assert before + [Quiet] + after == [Quiet] + after;
    }
  }

  /** The intended loop is not what runs: one quiet wait between two
      events loses the second one. */
  lemma HeartbeatLosesEvents(sessionId: string, n: Line, j: Line)
    ensures TaskLoop(sessionId, [Quiet, Delivered(n, j)]) == [HeartbeatChunk]
    ensures ResumingLoop(sessionId, [Quiet, Delivered(n, j)]) == [HeartbeatChunk, EventChunk(n, j)]
  {
    assert [Quiet, Delivered(n, j)][1..] == [Delivered(n, j)];
    assert [Delivered(n, j)][1..] == [];
    assert ResumingLoop(sessionId, [Delivered(n, j)]) == [EventChunk(n, j)] + ResumingLoop(sessionId, []);
  }

  /** What the agent's side of the stream amounts to: the delivered
      events up to the first failure, then that failure. Quiet waits leave
      no trace. */
  datatype Observed = Relayed(name: Line, json: Line) | Failed(message: string)

  function Observations(pulls: seq<Pull>): seq<Observed>
    decreases |pulls|
  {
    if |pulls| == 0 then []
    else
      match pulls[0]
      case Delivered(n, j) => [Relayed(n, j)] + Observations(pulls[1..])
      case Quiet => Observations(pulls[1..])
      case Raised(m) => [Failed(m)]
  }

  /** The event a client decodes for an observation. */
  function Decode(sessionId: string, o: Observed): Dispatched {
    match o
    case Relayed(n, j) => Dispatched(if n == "" then "message" else n, j)
    case Failed(m) => Dispatched(RunError, ErrorChunk(sessionId, m).json)
  }

  function DecodeAll(sessionId: string, os: seq<Observed>): seq<Dispatched>
    decreases |os|
  {
    if |os| == 0 then [] else [Decode(sessionId, os[0])] + DecodeAll(sessionId, os[1..])
  }

  /** As written, the client sees the events delivered before the first
      quiet wait, then the RUN_ERROR of a failure among them. */
  lemma {:induction false} TaskLoopSeen(sessionId: string, pulls: seq<Pull>)
    ensures Expected(TaskLoop(sessionId, pulls)) == DecodeAll(sessionId, Observations(UntilQuiet(pulls)))
    decreases |pulls|
  {
    if |pulls| > 0 {
      TaskLoopSeen(sessionId, pulls[1..]);
      var rest := TaskLoop(sessionId, pulls[1..]);
      match pulls[0]
      case Delivered(n, j) =>
        assert ([EventChunk(n, j)] + rest)[1..] == rest;
        assert UntilQuiet(pulls) == [pulls[0]] + UntilQuiet(pulls[1..]);
        assert UntilQuiet(pulls)[1..] == UntilQuiet(pulls[1..]);
        var os := [Relayed(n, j)] + Observations(UntilQuiet(pulls[1..]));
        assert os[1..] == Observations(UntilQuiet(pulls[1..]));
      case Quiet =>
        assert [HeartbeatChunk][1..] == [];
      case Raised(m) =>
        assert UntilQuiet(pulls)[0] == Raised(m);
        ErrorFrameSeen(sessionId, m);
    }
  }

  /** With a resuming heartbeat the client would see every delivered
      event, in order, up to the RUN_ERROR of the first failure; heartbeats
      leave no trace. */
  lemma {:induction false} ResumingLoopSeen(sessionId: string, pulls: seq<Pull>)
    ensures Expected(ResumingLoop(sessionId, pulls)) == DecodeAll(sessionId, Observations(pulls))
    decreases |pulls|
  {
    if |pulls| > 0 {
      ResumingLoopSeen(sessionId, pulls[1..]);
      var rest := ResumingLoop(sessionId, pulls[1..]);
      match pulls[0]
      case Delivered(n, j) =>
        assert ([EventChunk(n, j)] + rest)[1..] == rest;
        var os := [Relayed(n, j)] + Observations(pulls[1..]);
        assert os[1..] == Observations(pulls[1..]);
      case Quiet =>
        assert ([HeartbeatChunk] + rest)[1..] == rest;
      case Raised(m) =>
        ErrorFrameSeen(sessionId, m);
    }
  }

  lemma ErrorFrameSeen(sessionId: string, message: string)
    ensures Expected([ErrorChunk(sessionId, message)]) == DecodeAll(sessionId, [Failed(message)])
  {
    var c := ErrorChunk(sessionId, message);
    assert c == EventChunk(RunError, c.json);
    SingleEventSeen(RunError, c.json);
    DecodeOne(sessionId, Failed(message));
    assert Decode(sessionId, Failed(message)) == Dispatched(RunError, c.json);
  }

  lemma DecodeOne(sessionId: string, o: Observed)
    ensures DecodeAll(sessionId, [o]) == [Decode(sessionId, o)]
  {
    assert [o][1..] == [];
  }

  lemma SingleEventSeen(name: Line, json: Line)
    ensures Expected([EventChunk(name, json)]) == [Dispatched(if name == "" then "message" else name, json)]
  {
    assert [EventChunk(name, json)][1..] == [];
  }

  /** A client reading the task stream sees SESSION_CREATED first, with
      the session id in its data, then one event per delivered agent event
      in order with the heartbeats invisible, and the RUN_ERROR of the
      first failure. */
  lemma TaskStreamAsSeen(sessionId: string, pulls: seq<Pull>)
    ensures var seen := Parse(Render(TaskStream(sessionId, pulls)));
            |seen| >= 1 && seen[0].eventType == SessionCreated
            && Contains(seen[0].data, Member("session_id", Str(sessionId)))
            && seen[1..] == DecodeAll(sessionId, Observations(UntilQuiet(pulls)))
  {
    var cs := TaskStream(sessionId, pulls);
    StreamRoundTrip(cs);
    TaskLoopSeen(sessionId, pulls);
    assert cs[1..] == TaskLoop(sessionId, pulls);
    CreatedNamesSession(sessionId);
  }

  /** The same with a resuming heartbeat: every delivered event is seen. */
  lemma ResumingStreamAsSeen(sessionId: string, pulls: seq<Pull>)
    ensures var seen := Parse(Render(ResumingTaskStream(sessionId, pulls)));
            |seen| >= 1 && seen[0].eventType == SessionCreated
            && Contains(seen[0].data, Member("session_id", Str(sessionId)))
            && seen[1..] == DecodeAll(sessionId, Observations(pulls))
  {
    var cs := ResumingTaskStream(sessionId, pulls);
    StreamRoundTrip(cs);
    ResumingLoopSeen(sessionId, pulls);
    assert cs[1..] == ResumingLoop(sessionId, pulls);
    CreatedNamesSession(sessionId);
  }

  lemma CreatedNamesSession(sessionId: string)
    ensures Contains(CreatedChunk(sessionId).json, Member("session_id", Str(sessionId)))
  {
    ObjectHasMember([("type", Str("SESSION_CREATED")), ("session_id", Str(sessionId)), ("timestamp", Str(""))], 1);
  }

  /** The RUN_ERROR event names the session. */
  lemma ErrorEventNamesSession(sessionId: string, message: string)
    ensures Decode(sessionId, Failed(message)).eventType == RunError
    ensures Contains(Decode(sessionId, Failed(message)).data, Member("session_id", Str(sessionId)))
  {
    ObjectHasMember([("type", Str("RUN_ERROR")), ("message", Str(message)), ("session_id", Str(sessionId)),
                     ("timestamp", Str(""))], 2);
  }

  /** The first failure ends the stream: what the agent delivered before
      it is relayed in order, then the failure, and nothing after it. */
  lemma FailureEndsStream(before: seq<Pull>, message: string, after: seq<Pull>)
    requires forall i :: 0 <= i < |before| ==> !before[i].Raised?
    ensures Observations(before + [Raised(message)] + after) == Observations(before) + [Failed(message)]
  {
    var failing := [Raised(message)] + after;
    assert before + [Raised(message)] + after == before + failing;
    ObservationsSplit(before, failing);
    assert failing[0] == Raised(message);
  }

  /** Pulls that do not fail are observed independently of what follows. */
  lemma {:induction false} ObservationsSplit(before: seq<Pull>, rest: seq<Pull>)
    requires forall i :: 0 <= i < |before| ==> !before[i].Raised?
    ensures Observations(before + rest) == Observations(before) + Observations(rest)
    decreases |before|
  {
    if |before| > 0 {
      assert (before + rest)[1..] == before[1..] + rest;
      assert (before + rest)[0] == before[0];
      ObservationsSplit(before[1..], rest);
    } else {
      assert before + rest == rest;
    }
  }

  predicate IsDelivery(p: Pull) {
    p.Delivered?
  }

  /** Without a failure every delivered event is relayed, in order. */
  lemma {:induction false} DeliveredAllRelayed(pulls: seq<Pull>)
    requires forall i :: 0 <= i < |pulls| ==> !pulls[i].Raised?
    ensures |Observations(pulls)| == CountWhere(pulls, IsDelivery)
    ensures forall o :: o in Observations(pulls) ==> o.Relayed?
    decreases |pulls|
  {
    if |pulls| > 0 {
      DeliveredAllRelayed(pulls[1..]);
    }
  }

  // -------------------------------------------------------- subscribe stream

  /** What one wait on a subscriber queue yields: an event object (framed
      by its own `to_sse`), a plain dictionary (framed by its `type` entry,
      "UNKNOWN" without one), or thirty seconds of silence, answered with a
      HEARTBEAT event stamped with the given time. */
  datatype Delivery = EventObject(name: Line, json: Line) | PlainEvent(eventType: Option<Line>, json: Line)
                    | Silence(timestamp: string)

  function DeliveryChunk(sessionId: string, d: Delivery): Chunk {
    match d
    case EventObject(n, j) => EventChunk(n, j)
    case PlainEvent(t, j) => EventChunk(if t.Some? then t.value else "UNKNOWN", j)
    case Silence(ts) =>
      EventChunk(HeartbeatEvent, Dumps([("type", Str("HEARTBEAT")), ("session_id", Str(sessionId)),
                                        ("timestamp", Str(ts))]))
  }

  /** The state snapshot frame; `snapshot` is the JSON text of the built
      snapshot. */
  function SnapshotChunk(sessionId: string, snapshot: string, timestamp: string): Chunk
    requires Printable(snapshot)
  {
    EventChunk(StateSnapshot, Dumps([("type", Str("STATE_SNAPSHOT")), ("session_id", Str(sessionId)),
                                     ("snapshot", Raw(snapshot)), ("timestamp", Str(timestamp))]))
  }

  /** The snapshot frame, then one frame per delivery, in order. */
  function SnapshotThen(sessionId: string, snapshot: string, timestamp: string, deliveries: seq<Delivery>): (cs: seq<Chunk>)
    requires Printable(snapshot)
    ensures |cs| == 1 + |deliveries|
    ensures cs[0] == SnapshotChunk(sessionId, snapshot, timestamp)
    ensures forall i :: 0 <= i < |deliveries| ==> cs[1 + i] == DeliveryChunk(sessionId, deliveries[i])
  {
    Prepend(SnapshotChunk(sessionId, snapshot, timestamp), DeliveryChunks(sessionId, deliveries))
  }

  /** One frame per delivery, in order. */
  function DeliveryChunks(sessionId: string, deliveries: seq<Delivery>): (cs: seq<Chunk>)
    ensures |cs| == |deliveries|
    ensures forall i :: 0 <= i < |deliveries| ==> cs[i] == DeliveryChunk(sessionId, deliveries[i])
  {
    seq(|deliveries|, i requires 0 <= i < |deliveries| => DeliveryChunk(sessionId, deliveries[i]))
  }

  /** `x` in front of `xs`. */
  function Prepend<T>(x: T, xs: seq<T>): (r: seq<T>)
    ensures |r| == 1 + |xs| && r[0] == x
    ensures forall i :: 0 <= i < |xs| ==> r[1 + i] == xs[i]
  {
    [x] + xs
  }

  /** How a subscription ended: the client went away (the generator is
      cancelled) or building the snapshot or a wait raised. */
  datatype Subscription = Subscription(chunks: seq<Chunk>, manager: SessionManager.Manager)

  /** `subscribe_to_session`: 404 for a session known nowhere; otherwise
      the queue is subscribed, the generator writes the snapshot (when it
      could be built) and then one frame per delivery, and whichever way
      it ends the queue is unsubscribed. */
  function Subscribe(m: SessionManager.Manager, sessionId: string, known: bool, queue: nat,
                     snapshot: Option<string>, timestamp: string, deliveries: seq<Delivery>)
    : (r: Option<Subscription>)
    requires snapshot.Some? ==> Printable(snapshot.value)
    ensures !known <==> r.None?
    ensures r.Some? && snapshot.Some? ==>
              |r.value.chunks| == 1 + |deliveries| && r.value.chunks[0].EventChunk?
              && r.value.chunks[0].name == StateSnapshot
              && r.value.chunks[0] == SnapshotChunk(sessionId, snapshot.value, timestamp)
              && forall i :: 0 <= i < |deliveries| ==> r.value.chunks[1 + i] == DeliveryChunk(sessionId, deliveries[i])
    ensures r.Some? && snapshot.None? ==> r.value.chunks == []
  {
    if !known then None
    else
      var subscribed := SessionManager.Subscribe(m, sessionId, queue);
      var frames := if snapshot.Some? then SnapshotThen(sessionId, snapshot.value, timestamp, deliveries) else [];
      Some(Subscription(frames, Unsubscribe(subscribed, sessionId, queue)))
  }

  /** A subscription leaves the subscriber lists as it found them: the
      queue it added is removed again whichever way the stream ends. The
      manager never keeps an empty list, which is what `unsubscribe`
      guarantees. */
  lemma SubscriptionCleansUp(m: SessionManager.Manager, sessionId: string, queue: nat, snapshot: Option<string>,
                             timestamp: string, deliveries: seq<Delivery>)
    requires snapshot.Some? ==> Printable(snapshot.value)
    requires sessionId in m.subscribers ==> |m.subscribers[sessionId]| > 0
    requires queue !in Subscribers(m, sessionId)
    ensures var r := Subscribe(m, sessionId, true, queue, snapshot, timestamp, deliveries);
            r.Some? && r.value.manager == m
  {
    SubscribeUnsubscribe(m, sessionId, queue);
  }

  lemma SubscribeUnsubscribe(m: SessionManager.Manager, sessionId: string, queue: nat)
    requires sessionId in m.subscribers ==> |m.subscribers[sessionId]| > 0
    requires queue !in Subscribers(m, sessionId)
    ensures Unsubscribe(SessionManager.Subscribe(m, sessionId, queue), sessionId, queue) == m
  {
    var before := Subscribers(m, sessionId);
    RemoveLastAdded(before, queue);
    if sessionId in m.subscribers {
      MapRestored(m.subscribers, sessionId, before + [queue]);
    } else {
      MapRestoredAbsent(m.subscribers, sessionId, before + [queue]);
    }
  }

  lemma MapRestored<K, V>(mp: map<K, V>, k: K, v: V)
    requires k in mp
    ensures mp[k := v][k := mp[k]] == mp
  {
  }

  lemma MapRestoredAbsent<K, V>(mp: map<K, V>, k: K, v: V)
    requires k !in mp
    ensures mp[k := v] - {k} == mp
  {
  }

  lemma {:induction false} RemoveLastAdded(s: seq<nat>, x: nat)
    requires x !in s
    ensures RemoveFirst(s + [x], x) == s
  {
    if |s| > 0 {
      assert (s + [x])[1..] == s[1..] + [x];
      RemoveLastAdded(s[1..], x);
    } else {
      assert s + [x] == [x];
    }
  }
}
