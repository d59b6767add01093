/**
 * The Binance perpetual (USD-M futures) user stream data source: it keeps a
 * listen key alive with one keep-alive request per tick, runs exactly one
 * reader task for the key it holds, and starts over with a fresh key
 * whenever a keep-alive is refused.
 *
 * Every I/O call is replaced by its outcome, given as a parameter. A task is
 * an opaque id (the number of tasks spawned before it), and cancelling a task
 * appends its id to a log, so the model can say which readers are still live.
 */
module BinancePerpetualUserStream {
  import opened PyJson

  /** What one HTTP request to the listen-key endpoint came back with. */
  datatype Exchange =
    | Responded(status: int, body: JsonValue)
    | TransportFailed   // the request raised: connection error, body that is not JSON, ...

  /**
   * `get_listen_key`: the POST must answer 200, and then the key is the
   * body's "listenKey"; any other status raises IOError with that status.
   */
  function GetListenKey(resp: Exchange): (r: Result<JsonValue>)
    ensures resp.Responded? && resp.status != 200 ==> r == Err(IOError(resp.status))
    ensures r.Ok? <==> resp.Responded? && resp.status == 200 && resp.body.JObject? && "listenKey" in resp.body.fields
    ensures r.Ok? ==> r.value == resp.body.fields["listenKey"]
  {
    match resp
    case TransportFailed => Err(Failed)
    case Responded(status, body) =>
      if status != 200 then Err(IOError(status))
      else match body
        case JObject(m) => if "listenKey" in m then Ok(m["listenKey"]) else Err(KeyError("listenKey"))
        case _ => Err(TypeError)
  }

  /**
   * `ping_listen_key`: the PUT keeps the key alive unless the body carries a
   * "code" field, which reports failure. The HTTP status is not looked at.
   */
  function PingListenKey(resp: Exchange): (r: Result<bool>)
    ensures r == Ok(false) <==> resp.Responded? && Contains(resp.body, "code") == Ok(true)
    ensures r == Ok(true) <==> resp.Responded? && Contains(resp.body, "code") == Ok(false)
    ensures resp.Responded? && resp.body.JObject? ==> r == Ok("code" !in resp.body.fields)
  {
    match resp
    case TransportFailed => Err(Failed)
    case Responded(_, body) =>
      match Contains(body, "code")
      case Err(e) => Err(e)
      case Ok(found) => Ok(!found)
  }

  /** The keep-alive verdict depends on the body alone. */
  lemma PingIgnoresStatus(status: int, other: int, body: JsonValue)
    ensures PingListenKey(Responded(status, body)) == PingListenKey(Responded(other, body))
  {
  }

  type TaskId = nat

  /**
   * The two fields the data source maintains, `_current_listen_key` and
   * `_listen_for_user_stream_task`, with the history of the reader tasks:
   * how many were spawned (task ids are 0 .. spawned - 1) and which were
   * cancelled, in order.
   */
  datatype Session = Session(
    listenKey: Option<JsonValue>,
    reader: Option<TaskId>,
    spawned: nat,
    cancelled: seq<TaskId>)

  const INITIAL_SESSION: Session := Session(None, None, 0, [])

  /** What one iteration of the maintenance loop waits before the next. */
  datatype Pause =
    | Immediately    // `continue` after a refused keep-alive
    | NextTick       // `wait_til_next_tick(seconds=60)` after a keep-alive
    | RetryAfter5s   // `asyncio.sleep(5)` after an unexpected error

  /** The outcomes of the two requests one iteration may make. */
  datatype Cycle = Cycle(fetch: Exchange, ping: Exchange)

  /** Storing a fetched key: Python's `is None` treats a JSON null key as no key at all. */
  function KeyFrom(v: JsonValue): Option<JsonValue>
  {
    if v == JNull then None else Some(v)
  }

  /** The cancellation log after `if task is not None: task.cancel()`. */
  function CancelReader(s: Session): seq<TaskId>
  {
    if s.reader.Some? then s.cancelled + [s.reader.value] else s.cancelled
  }

  /** A fresh key was obtained: store it, retire the old reader, spawn a new one. */
  function Adopt(s: Session, key: JsonValue): Session
  {
    Session(KeyFrom(key), Some(s.spawned), s.spawned + 1, CancelReader(s))
  }

  /** The keep-alive step of one iteration. */
  function Refresh(s: Session, ping: Exchange): (Session, Pause)
  {
    match PingListenKey(ping)
    case Err(_) => (s, RetryAfter5s)
    case Ok(success) =>
      if success then (s, NextTick)
      else (s.(listenKey := None, reader := None, cancelled := CancelReader(s)), Immediately)
  }

  /** One iteration of the `while True` loop of `listen_for_user_stream`. */
  function Step(s: Session, c: Cycle): (Session, Pause)
  {
    if s.listenKey.None? then
      match GetListenKey(c.fetch)
      case Err(_) => (s, RetryAfter5s)
      case Ok(key) => Refresh(Adopt(s, key), c.ping)
    else Refresh(s, c.ping)
  }

  /** The `finally` block: cancel the reader and forget both fields. */
  function Finish(s: Session): Session
  {
    s.(listenKey := None, reader := None, cancelled := CancelReader(s))
  }

  /** The session after the given iterations, in order. */
  function Run(s: Session, cycles: seq<Cycle>): Session
    decreases |cycles|
  {
    if cycles == [] then s else Step(Run(s, cycles[..|cycles| - 1]), cycles[|cycles| - 1]).0
  }

  /** The spawned reader tasks that nobody has cancelled. */
  ghost function Live(s: Session): set<TaskId>
  {
    set t: TaskId | t < s.spawned && t !in s.cancelled
  }

  /**
   * The invariant of the data source: the only live reader is the current one
   * (so at most one reader runs), only spawned tasks are cancelled, and no task
   * is cancelled twice.
   */
  ghost predicate SingleReader(s: Session)
  {
    Live(s) == (if s.reader.Some? then {s.reader.value} else {})
    && (forall i :: 0 <= i < |s.cancelled| ==> s.cancelled[i] < s.spawned)
    && (forall i, j :: 0 <= i < j < |s.cancelled| ==> s.cancelled[i] != s.cancelled[j])
  }

  lemma InitialSessionHasNoReader()
    ensures SingleReader(INITIAL_SESSION) && Live(INITIAL_SESSION) == {}
  {
  }

  lemma CancelReaderKeepsInvariant(s: Session)
    requires SingleReader(s)
    ensures var s' := s.(reader := None, cancelled := CancelReader(s));
            SingleReader(s') && Live(s') == {}
  {
    var s' := s.(reader := None, cancelled := CancelReader(s));
    forall t: TaskId ensures t in Live(s') <==> false {
      assert t in Live(s) <==> t < s.spawned && t !in s.cancelled;
      if s.reader.Some? && t == s.reader.value {
        assert t in s'.cancelled[|s.cancelled|..];
      }
    }
    if s.reader.Some? {
      assert s.reader.value in Live(s);
    }
  }

  lemma AdoptKeepsInvariant(s: Session, key: JsonValue)
    requires SingleReader(s)
    ensures SingleReader(Adopt(s, key)) && Live(Adopt(s, key)) == {s.spawned}
  {
    var s0 := s.(reader := None, cancelled := CancelReader(s));
    CancelReaderKeepsInvariant(s);
    var s' := Adopt(s, key);
    assert s'.cancelled == s0.cancelled;
    forall t: TaskId ensures t in Live(s') <==> t == s.spawned {
      assert t in Live(s0) <==> t < s.spawned && t !in s0.cancelled;
    }
  }

  /** Every iteration keeps at most one reader live, and that one is the current reader. */
  lemma StepKeepsSingleReader(s: Session, c: Cycle)
    requires SingleReader(s)
    ensures SingleReader(Step(s, c).0)
  {
    var s1 := if s.listenKey.None? && GetListenKey(c.fetch).Ok? then Adopt(s, GetListenKey(c.fetch).value) else s;
    if s.listenKey.None? && GetListenKey(c.fetch).Ok? {
      AdoptKeepsInvariant(s, GetListenKey(c.fetch).value);
    }
    if PingListenKey(c.ping) == Ok(false) {
      CancelReaderKeepsInvariant(s1);
    }
  }

  lemma {:induction false} RunKeepsSingleReader(s: Session, cycles: seq<Cycle>)
    requires SingleReader(s)
    ensures SingleReader(Run(s, cycles))
    decreases |cycles|
  {
    if cycles != [] {
      RunKeepsSingleReader(s, cycles[..|cycles| - 1]);
      StepKeepsSingleReader(Run(s, cycles[..|cycles| - 1]), cycles[|cycles| - 1]);
    }
  }

  /**
   * However the loop ends, the `finally` block leaves no key, no reader and
   * no live reader task behind.
   */
  lemma ListenForUserStreamLeavesNothingLive(s: Session, cycles: seq<Cycle>)
    requires SingleReader(s)
    ensures var f := Finish(Run(s, cycles));
            f.listenKey.None? && f.reader.None? && SingleReader(f) && Live(f) == {}
  {
    RunKeepsSingleReader(s, cycles);
    CancelReaderKeepsInvariant(Run(s, cycles));
  }

  /** With a key in hand the iteration never fetches: the fetch outcome is irrelevant. */
  lemma FetchOnlyWithoutKey(s: Session, c1: Cycle, c2: Cycle)
    requires s.listenKey.Some? && c1.ping == c2.ping
    ensures Step(s, c1) == Step(s, c2)
  {
  }

  /** Without a key the iteration fetches one; if that raises, nothing changes and it retries after 5 s. */
  lemma FailedFetchChangesNothing(s: Session, c: Cycle)
    requires s.listenKey.None? && GetListenKey(c.fetch).Err?
    ensures Step(s, c) == (s, RetryAfter5s)
  {
  }

  /**
   * A newly obtained key retires the previous reader before a new reader,
   * with an id never used before, is started for it.
   */
  lemma NewKeyReplacesReader(s: Session, c: Cycle)
    requires SingleReader(s)
    requires s.listenKey.None? && GetListenKey(c.fetch).Ok?
    requires PingListenKey(c.ping) != Ok(false)
    ensures var s' := Step(s, c).0;
            s'.listenKey == KeyFrom(GetListenKey(c.fetch).value)
            && s'.reader == Some(s.spawned) && s.spawned !in s.cancelled
            && Live(s') == {s.spawned}
            && (s.reader.Some? ==> s.reader.value !in Live(s') && s'.cancelled == s.cancelled + [s.reader.value])
  {
    AdoptKeepsInvariant(s, GetListenKey(c.fetch).value);
  }

  /**
   * A refused keep-alive clears the key, cancels and drops the reader, and
   * goes straight to the next iteration, which therefore fetches a new key.
   */
  lemma RefusedPingResetsSession(s: Session, c: Cycle, next: Cycle)
    requires s.listenKey.Some? || GetListenKey(c.fetch).Ok?
    requires PingListenKey(c.ping) == Ok(false)
    ensures var (s', pause) := Step(s, c);
            s'.listenKey.None? && s'.reader.None? && pause == Immediately
            && (SingleReader(s) ==> SingleReader(s') && Live(s') == {})
            && (GetListenKey(next.fetch).Err? ==> Step(s', next) == (s', RetryAfter5s))
            && (GetListenKey(next.fetch).Ok? && PingListenKey(next.ping) != Ok(false) ==>
                  Step(s', next).0.listenKey == KeyFrom(GetListenKey(next.fetch).value)
                  && Step(s', next).0.reader == Some(s'.spawned))
  {
    if SingleReader(s) {
      var s1 := if s.listenKey.None? then Adopt(s, GetListenKey(c.fetch).value) else s;
      if s.listenKey.None? {
        AdoptKeepsInvariant(s, GetListenKey(c.fetch).value);
      }
      CancelReaderKeepsInvariant(s1);
    }
  }

  /** An accepted keep-alive leaves key and reader as they were and waits for the next tick. */
  lemma AcceptedPingKeepsSession(s: Session, c: Cycle)
    requires s.listenKey.Some? && PingListenKey(c.ping) == Ok(true)
    ensures Step(s, c) == (s, NextTick)
  {
  }

  /** An unexpected error while refreshing an existing key changes nothing; the loop retries after 5 s. */
  lemma FailedPingChangesNothing(s: Session, c: Cycle)
    requires s.listenKey.Some? && PingListenKey(c.ping).Err?
    ensures Step(s, c) == (s, RetryAfter5s)
  {
  }

  // ---------------------------------------------------------------------------
  // The websocket receive loop, `ws_messages`
  // ---------------------------------------------------------------------------

  /** How the keep-alive ping sent after a silent 30 s ended. */
  datatype PingReply =
    | Pong                  // the pong arrived within 10 s
    | PongTimeout           // no pong within 10 s
    | PingConnectionClosed  // the connection closed while pinging
    | PingRaised            // any other exception from the ping or the pong wait (CancelledError, ...)

  /** The outcome of one `recv` bounded by 30 s. */
  datatype Receive =
    | Message(raw: string)
    | RecvTimeout(reply: PingReply)
    | RecvConnectionClosed
    | RecvRaised            // any other exception, which propagates to the caller

  /** How the generator stopped, if it did. */
  datatype StreamEnd =
    | StillOpen        // every outcome consumed; the generator waits in `recv`
    | PingTimedOut     // returned after a pong timeout
    | Closed           // returned on ConnectionClosed
    | Propagated       // an exception left the generator

  /**
   * What the generator did: the messages it yielded, how many pings it
   * attempted (one per receive timeout, including a ping whose sending
   * failed because the connection had closed), and how it ended.
   */
  datatype WsTrace = WsTrace(yielded: seq<string>, pings: nat, end: StreamEnd)

  /** The behaviour of `ws_messages` over a script of receive outcomes. */
  function WsSpec(events: seq<Receive>): WsTrace
    decreases |events|
  {
    if events == [] then WsTrace([], 0, StillOpen)
    else match events[0]
      case Message(raw) =>
        var t := WsSpec(events[1..]); t.(yielded := [raw] + t.yielded)
      case RecvTimeout(Pong) =>
        var t := WsSpec(events[1..]); t.(pings := t.pings + 1)
      case RecvTimeout(PongTimeout) => WsTrace([], 1, PingTimedOut)
      case RecvTimeout(PingConnectionClosed) => WsTrace([], 1, Closed)
      case RecvTimeout(PingRaised) => WsTrace([], 1, Propagated)
      case RecvConnectionClosed => WsTrace([], 0, Closed)
      case RecvRaised => WsTrace([], 0, Propagated)
  }

  /** An outcome after which the generator stops. */
  predicate Ends(e: Receive)
  {
    !e.Message? && e != RecvTimeout(Pong)
  }

  function EndOf(e: Receive): StreamEnd
  {
    match e
    case RecvTimeout(PongTimeout) => PingTimedOut
    case RecvTimeout(PingRaised) => Propagated
    case RecvTimeout(_) => Closed
    case RecvConnectionClosed => Closed
    case _ => Propagated
  }

  /** The raw messages among the outcomes, in order. */
  function Messages(events: seq<Receive>): seq<string>
    decreases |events|
  {
    if events == [] then []
    else (if events[0].Message? then [events[0].raw] else []) + Messages(events[1..])
  }

  /** The outcomes that were receive timeouts. */
  function Timeouts(events: seq<Receive>): nat
    decreases |events|
  {
    if events == [] then 0 else (if events[0].RecvTimeout? then 1 else 0) + Timeouts(events[1..])
  }

  /** Outcome `k` is the first one that stops the generator. */
  ghost predicate FirstEndAt(events: seq<Receive>, k: int)
  {
    0 <= k < |events| && Ends(events[k]) && forall j :: 0 <= j < k ==> !Ends(events[j])
  }

  /**
   * The generator yields, in order, exactly the messages received before the
   * first stopping outcome, pings once per receive timeout up to and
   * including it, and ends the way that outcome says.
   */
  lemma {:induction false} WsStopsAtFirstEnd(events: seq<Receive>, k: int)
    requires FirstEndAt(events, k)
    ensures WsSpec(events) == WsTrace(Messages(events[..k]), Timeouts(events[..k + 1]), EndOf(events[k]))
    decreases |events|
  {
    if k > 0 {
      assert FirstEndAt(events[1..], k - 1);
      WsStopsAtFirstEnd(events[1..], k - 1);
      assert events[1..][..k - 1] == events[..k][1..];
      assert events[1..][..k] == events[..k + 1][1..];
    } else {
      assert events[..1] == [events[0]];
      assert events[..1][1..] == [];
    }
  }

  /** Without a stopping outcome the generator yields every message and is still open. */
  lemma {:induction false} WsOpenWithoutEnd(events: seq<Receive>)
    requires forall j :: 0 <= j < |events| ==> !Ends(events[j])
    ensures WsSpec(events) == WsTrace(Messages(events), Timeouts(events), StillOpen)
    decreases |events|
  {
    if events != [] {
      WsOpenWithoutEnd(events[1..]);
    }
  }

  /** Nothing after a stopping outcome is consumed. */
  lemma {:induction false} WsIgnoresAfterEnd(events: seq<Receive>, later: seq<Receive>, k: int)
    requires FirstEndAt(events, k)
    ensures WsSpec(events + later) == WsSpec(events)
    decreases |events|
  {
    if k > 0 {
      assert (events + later)[1..] == events[1..] + later;
      assert FirstEndAt(events[1..], k - 1);
      WsIgnoresAfterEnd(events[1..], later, k - 1);
    }
  }

  /** The websocket connection, as far as `ws_messages` touches it. */
  class WebSocketClient {
    var closed: bool
    var pingsSent: nat

    constructor ()
      ensures !closed && pingsSent == 0
    {
      closed := false;
      pingsSent := 0;
    }
  }

  /**
   * The data source object. Its fields are the two the source maintains plus
   * the task history (spawned count, cancellation log) that makes the
   * single-reader invariant statable.
   */
  class UserStreamDataSource {
    var currentListenKey: Option<JsonValue>
    var listenForUserStreamTask: Option<TaskId>
    var spawnedTasks: nat
    var cancelledTasks: seq<TaskId>

    function State(): Session
      reads this
    {
      Session(currentListenKey, listenForUserStreamTask, spawnedTasks, cancelledTasks)
    }

    ghost predicate Valid()
      reads this
    {
      SingleReader(State())
    }

    constructor ()
      ensures Valid() && State() == INITIAL_SESSION
    {
      currentListenKey := None;
      listenForUserStreamTask := None;
      spawnedTasks := 0;
      cancelledTasks := [];
      new;
      InitialSessionHasNoReader();
    }

    /** `if self._listen_for_user_stream_task is not None: ....cancel()` */
    method CancelReaderTask()
      modifies this`cancelledTasks
      ensures cancelledTasks == CancelReader(old(State()))
    {
      if listenForUserStreamTask.Some? {
        cancelledTasks := cancelledTasks + [listenForUserStreamTask.value];
      }
    }

    /** One pass through the body of the `while True` loop. */
    method MaintainListenKey(c: Cycle) returns (pause: Pause)
      requires Valid()
      modifies this
      ensures Valid()
      ensures (State(), pause) == Step(old(State()), c)
    {
      ghost var s := State();
      if currentListenKey.None? {
        var fetched := GetListenKey(c.fetch);
        if fetched.Err? {
          return RetryAfter5s;
        }
        currentListenKey := KeyFrom(fetched.value);
        CancelReaderTask();
        listenForUserStreamTask := Some(spawnedTasks);
        spawnedTasks := spawnedTasks + 1;
        AdoptKeepsInvariant(s, fetched.value);
      }
      var refreshed := PingListenKey(c.ping);
      if refreshed.Err? {
        pause := RetryAfter5s;
      } else if !refreshed.value {
        CancelReaderKeepsInvariant(State());
        currentListenKey := None;
        CancelReaderTask();
        listenForUserStreamTask := None;
        pause := Immediately;
      } else {
        pause := NextTick;
      }
      StepKeepsSingleReader(s, c);
    }

    /**
     * `listen_for_user_stream`: runs the maintenance loop over the given
     * outcomes and, when the task is cancelled after them, the `finally` block.
     */
    method ListenForUserStream(cycles: seq<Cycle>)
      requires Valid()
      modifies this
      ensures Valid()
      ensures State() == Finish(Run(old(State()), cycles))
      ensures currentListenKey.None? && listenForUserStreamTask.None? && Live(State()) == {}
    {
      var i := 0;
      while i < |cycles|
        invariant 0 <= i <= |cycles|
        invariant Valid()
        invariant State() == Run(old(State()), cycles[..i])
      {
        assert cycles[..i + 1][..i] == cycles[..i];
        var _ := MaintainListenKey(cycles[i]);
        i := i + 1;
      }
      assert cycles[..i] == cycles;
      CancelReaderKeepsInvariant(State());
      CancelReaderTask();
      listenForUserStreamTask := None;
      currentListenKey := None;
    }

    /**
     * `ws_messages`: yields each message, pings after a silent receive,
     * returns on a pong timeout or a closed connection, and closes the socket
     * on every way out.
     */
    method WsMessages(client: WebSocketClient, events: seq<Receive>) returns (yielded: seq<string>, end: StreamEnd)
      modifies client
      ensures client.pingsSent >= old(client.pingsSent)
      ensures WsTrace(yielded, client.pingsSent - old(client.pingsSent), end) == WsSpec(events)
      ensures client.closed == (end != StillOpen || old(client.closed))
    {
      yielded, end := [], StillOpen;
      var i := 0;
      while i < |events| && end == StillOpen
        invariant 0 <= i <= |events|
        invariant client.pingsSent >= old(client.pingsSent)
        invariant client.closed == old(client.closed)
        invariant end == StillOpen ==>
          var t := WsSpec(events[i..]);
          WsSpec(events) == WsTrace(yielded + t.yielded, client.pingsSent - old(client.pingsSent) + t.pings, t.end)
        invariant end != StillOpen ==>
          WsSpec(events) == WsTrace(yielded, client.pingsSent - old(client.pingsSent), end)
      {
        assert events[i..][1..] == events[i + 1..];
        match events[i] {
          case Message(raw) =>
            yielded := yielded + [raw];
          case RecvTimeout(reply) =>
            client.pingsSent := client.pingsSent + 1;
            if reply == PongTimeout {
              end := PingTimedOut;
            } else if reply == PingConnectionClosed {
              end := Closed;
            } else if reply == PingRaised {
              end := Propagated;
            }
          case RecvConnectionClosed =>
            end := Closed;
          case RecvRaised =>
            end := Propagated;
        }
        i := i + 1;
      }
      if end != StillOpen {
        client.closed := true;
      }
    }
  }
}
