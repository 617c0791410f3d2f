/**
  The database gate in front of the API (server/src/middleware/dbCheck.ts) and the
  way the server mounts it (server/src/index.ts): every request under "/api" passes
  the gate, which answers 503 while the database connection is not ready, except for
  the health endpoint. A connection state is mongoose's `readyState`; 1 is "connected".

  Express strips the mount path before a mounted middleware sees the request: under
  `app.use('/api', gate)` a request for "/api/health" reaches the gate with
  `req.path == "/health"`.
 */
module DbCheck {
  import Text

  const Connected: int := 1

  /** What the gate does with a request: hand it on, or answer it itself. */
  datatype GateOutcome = CallNext | Respond(status: int, success: bool)

  /** `checkDatabaseConnection` as written: it bypasses the path "/api/health". */
  function CheckDatabaseConnection(path: string, readyState: int): (r: GateOutcome)
    ensures r.Respond? <==> path != "/api/health" && readyState != Connected
    ensures r.Respond? ==> r == Respond(503, false)
  {
    if path == "/api/health" then CallNext
    else if readyState != Connected then Respond(503, false)
    else CallNext
  }

  /**
    The path a middleware mounted at `mount` sees: what follows the mount path, or "/"
    when nothing does. Express only dispatches to the middleware when the mount path is
    a whole leading segment of the request path.
   */
  function MountedPath(full: string, mount: string): (r: string)
    requires Text.StartsWith(full, mount)
    requires full == mount || full[|mount|] == '/'
    ensures full == mount ==> r == "/"
    ensures full != mount ==> mount + r == full && Text.StartsWith(r, "/")
  {
    if full == mount then "/" else full[|mount|..]
  }

  /** How a request under "/api" is answered. */
  datatype ApiResponse =
    | Unavailable             // the gate's 503 `{ success: false, error: ... }`
    | HealthReport(status: int) // the health handler: 200 when connected, 503 otherwise
    | Routed                  // handed on to the API routers

  /** The health handler: "OK" with 200 when connected, "SERVICE_UNAVAILABLE" with 503 otherwise. */
  function HealthStatus(readyState: int): (r: int)
    ensures r == 200 <==> readyState == Connected
    ensures r == 200 || r == 503
  {
    if readyState == Connected then 200 else 503
  }

  /** The handler chain after the gate let the request through. */
  function AfterGate(full: string, readyState: int): ApiResponse
  {
    if full == "/api/health" then HealthReport(HealthStatus(readyState)) else Routed
  }

  predicate UnderApi(full: string)
  {
    Text.StartsWith(full, "/api") && (full == "/api" || full[4] == '/')
  }

  /** The server as written: the gate mounted at "/api", then the handlers. */
  function ServeAsWritten(full: string, readyState: int): (r: ApiResponse)
    requires UnderApi(full)
    ensures readyState == Connected ==> r == AfterGate(full, readyState)
  {
    match CheckDatabaseConnection(MountedPath(full, "/api"), readyState)
    case Respond(_, _) => Unavailable
    case CallNext => AfterGate(full, readyState)
  }

  /**
    The bypass never fires for the health endpoint: while the database is down a
    health request gets the gate's generic 503 and never reaches the health report.
   */
  lemma HealthGatedWhenDown(readyState: int)
    requires readyState != Connected
    ensures ServeAsWritten("/api/health", readyState) == Unavailable
  {
    assert MountedPath("/api/health", "/api") == "/health";
  }

  /**
    As mounted, the bypass only fires for the doubled path "/api/api/health": every
    request under "/api", the health endpoint included, is refused while the database
    is down, except that one.
   */
  lemma {:induction false} GateAsWritten(full: string, readyState: int)
    requires UnderApi(full)
    ensures ServeAsWritten(full, readyState) == Unavailable <==> readyState != Connected && full != "/api/api/health"
  {
    var p := MountedPath(full, "/api");
    if full != "/api" {
      assert full == "/api" + p;
    }
  }

  /**
    The server with the gate's bypass corrected: the gate compares the full request
    path (`req.originalUrl`) rather than the path it sees under its mount.
   */
  function Serve(full: string, readyState: int): (r: ApiResponse)
    requires UnderApi(full)
  {
    match CheckDatabaseConnection(full, readyState)
    case Respond(_, _) => Unavailable
    case CallNext => AfterGate(full, readyState)
  }

  /**
    With the corrected gate the health endpoint always reports the connection state
    itself, and every other path under "/api" gets the gate's 503 while the database
    is down and the routers otherwise.
   */
  lemma HealthAlwaysReports(full: string, readyState: int)
    requires UnderApi(full)
    ensures full == "/api/health" ==> Serve(full, readyState) == HealthReport(HealthStatus(readyState))
    ensures full != "/api/health" ==> Serve(full, readyState) == if readyState == Connected then Routed else Unavailable
  {
  }
}
