/** ConcurrencyMiddleware (src/middleware/concurrency.py): the table of active speech sessions,
    keyed by the X-Session-ID header and stamped with the time each was last seen. Times are
    integer seconds passed in by the caller; the semaphore's waiting is not modelled. */
module Concurrency {
  import opened Wrappers

  const Whitelist: seq<string> := [
    "/", "/docs", "/redoc", "/openapi.json", "/api/status", "/api/lessons",
    "/api/tts/voices", "/js/app.js", "/favicon.ico"
  ]

  const StaticPrefixes: seq<string> := ["/js/", "/css/", "/img/"]

  const ControlledPath: string := "/api/tts"
  const MissingSession: Exc := HttpException(400, Message("缺少会话ID"))

  /** How `dispatch` treats a request, by the tests it applies in order. */
  datatype Route = Whitelisted | Static | Controlled | OtherApi | Other

  predicate IsStatic(path: string) {
    exists i :: 0 <= i < |StaticPrefixes| && StaticPrefixes[i] <= path
  }

  function RouteOf(path: string, verb: string): Route {
    if path in Whitelist then Whitelisted
    else if IsStatic(path) then Static
    else if "/api/" <= path then
      (if path == ControlledPath && verb == "POST" then Controlled else OtherApi)
    else Other
  }

  /** Exactly POST /api/tts is session-controlled; every other request passes straight through. */
  lemma ControlledExactly(path: string, verb: string)
    ensures RouteOf(path, verb) == Controlled <==> path == ControlledPath && verb == "POST"
  {
    if path == ControlledPath {
      assert path !in Whitelist;
      assert path[1] == 'a';
      assert !IsStatic(path) by {
        forall i | 0 <= i < |StaticPrefixes| ensures !(StaticPrefixes[i] <= path) {
          assert StaticPrefixes[i][1] != 'a';
        }
      }
    }
  }

  /** The table after `_cleanup_expired_sessions` at time `now`. */
  function Sweep(t: map<string, int>, now: int, timeout: int): map<string, int> {
    map k | k in t && now - t[k] <= timeout :: t[k]
  }

  /** A later sweep removes everything an earlier one would, so sweeping at `n1` and then at
      `n2 >= n1` is the same as sweeping once at `n2`. */
  lemma SweepAbsorbs(t: map<string, int>, n1: int, n2: int, timeout: int)
    requires n1 <= n2
    ensures Sweep(Sweep(t, n1, timeout), n2, timeout) == Sweep(t, n2, timeout)
  {
    var a := Sweep(Sweep(t, n1, timeout), n2, timeout);
    var b := Sweep(t, n2, timeout);
    assert a.Keys == b.Keys;
  }

  /** The counts `get_status` reports. */
  datatype Status = Status(currentConcurrency: int, maxConcurrency: int, waiting: int)

  function StatusOf(t: map<string, int>, maxConcurrency: int): (s: Status)
    ensures s.waiting >= 0
    ensures s.currentConcurrency == |t| && s.maxConcurrency == maxConcurrency
    ensures s.waiting > 0 <==> |t| > maxConcurrency
    ensures s.waiting > 0 ==> s.currentConcurrency == s.maxConcurrency + s.waiting
  {
    Status(|t|, maxConcurrency, if |t| - maxConcurrency > 0 then |t| - maxConcurrency else 0)
  }

  class ConcurrencyMiddleware {
    const maxConcurrency: int
    const timeout: int
    /** `active_sessions`: session ID to the time it was last seen. */
    var activeSessions: map<string, int>

    constructor (maxConcurrency: int, timeout: int)
      ensures this.maxConcurrency == maxConcurrency && this.timeout == timeout
      ensures activeSessions == map[]
    {
      this.maxConcurrency := maxConcurrency;
      this.timeout := timeout;
      activeSessions := map[];
    }

    /** `_cleanup_expired_sessions`: drops exactly the sessions idle for more than `timeout`. */
    method CleanupExpiredSessions(now: int)
      modifies this
      ensures forall k :: k in activeSessions <==>
        k in old(activeSessions) && now - old(activeSessions)[k] <= timeout
      ensures forall k :: k in activeSessions ==> activeSessions[k] == old(activeSessions)[k]
      ensures activeSessions == Sweep(old(activeSessions), now, timeout)
    {
      var expired := set k | k in activeSessions && now - activeSessions[k] > timeout;
      var remaining := expired;
      while remaining != {}
        invariant remaining <= expired
        invariant activeSessions.Keys == old(activeSessions).Keys - (expired - remaining)
        invariant forall k :: k in activeSessions ==> activeSessions[k] == old(activeSessions)[k]
        decreases remaining
      {
        var k :| k in remaining;
        activeSessions := activeSessions - {k};
        remaining := remaining - {k};
      }
      assert activeSessions.Keys == Sweep(old(activeSessions), now, timeout).Keys;
    }

    /** `get_status` at time `now`. */
    method GetStatus(now: int) returns (s: Status)
      modifies this
      ensures activeSessions == Sweep(old(activeSessions), now, timeout)
      ensures s == StatusOf(activeSessions, maxConcurrency)
    {
      CleanupExpiredSessions(now);
      s := StatusOf(activeSessions, maxConcurrency);
    }

    /** `dispatch` for a request with `path`, HTTP method `verb` and header `sessionId`. The sweep runs at
        `sweepTime` and the session is stamped with `now`, the two `time.time()` readings;
        `next` is what `call_next` returns or raises. */
    method Dispatch<R>(path: string, verb: string, sessionId: Option<string>,
                       sweepTime: int, now: int, next: Outcome<R>) returns (r: Outcome<R>)
      modifies this
      ensures RouteOf(path, verb) != Controlled ==>
        r == next && activeSessions == old(activeSessions)
      ensures RouteOf(path, verb) == Controlled && (sessionId == None || sessionId == Some("")) ==>
        r == Throw(MissingSession) && activeSessions == old(activeSessions)
      ensures RouteOf(path, verb) == Controlled && sessionId.Some? && sessionId.value != "" ==>
        var id := sessionId.value;
        var swept := Sweep(old(activeSessions), sweepTime, timeout);
        && r == next
        && (id in swept || next.Return? ==> activeSessions == swept[id := now])
        && (id !in swept && next.Throw? ==> activeSessions == swept)
    {
      var route := RouteOf(path, verb);
      if route != Controlled {
        return next;
      }
      if sessionId == None || sessionId == Some("") {
        return Throw(MissingSession);
      }
      var id := sessionId.value;
      CleanupExpiredSessions(sweepTime);
      if id in activeSessions {
        activeSessions := activeSessions[id := now];
        return next;
      }
      activeSessions := activeSessions[id := now];
      if next.Throw? {
        activeSessions := activeSessions - {id};
      }
      r := next;
    }
  }

  /** A controlled request that succeeds leaves its session in the table stamped `now`; apart from
      that entry the table only loses sessions the sweep drops. */
  method SuccessKeepsSession<R>(m: ConcurrencyMiddleware, sessionId: string, sweepTime: int, now: int, response: R)
    returns (r: Outcome<R>)
    requires sessionId != ""
    modifies m
    ensures r == Return(response)
    ensures sessionId in m.activeSessions && m.activeSessions[sessionId] == now
    ensures forall k :: k in m.activeSessions && k != sessionId ==>
      k in old(m.activeSessions) && m.activeSessions[k] == old(m.activeSessions)[k]
  {
    ControlledExactly(ControlledPath, "POST");
    r := m.Dispatch(ControlledPath, "POST", Some(sessionId), sweepTime, now, Return(response));
  }

  /** A new session whose request raises is gone from the table afterwards. */
  method FailureRemovesNewSession<R>(m: ConcurrencyMiddleware, sessionId: string, sweepTime: int, now: int, e: Exc)
    returns (r: Outcome<R>)
    requires sessionId != "" && sessionId !in m.activeSessions
    modifies m
    ensures r == Throw(e)
    ensures sessionId !in m.activeSessions
    ensures m.activeSessions == Sweep(old(m.activeSessions), sweepTime, m.timeout)
  {
    ControlledExactly(ControlledPath, "POST");
    r := m.Dispatch(ControlledPath, "POST", Some(sessionId), sweepTime, now, Throw(e));
  }
}
