/** The single-server controller: the module-level `global_hci_transport`,
    the background `gatt_server_task` that moves it, and the HTTP answers of
    `gatt_server_start` and `gatt_server_status`. */
module EmulatorServer {
  import opened Att
  import opened Gatt
  import opened PeripheralKinds

  /** `global_hci_transport`: None, the open transport, or the exception
      that ended the server task (kept as its text, `str(e)`). */
  datatype Global = Unset | Running | Failed(error: string)

  /** A JSON response: its status code and the members of its body object. */
  datatype Response = Response(status: int, body: seq<(string, string)>)

  /** How one run of `gatt_server_task` goes: opening the transport raises,
      or it connects and later either ends normally or raises (while
      creating the device, powering on, advertising, waiting for the
      transport's termination, or closing it). */
  datatype TaskRun = OpenFailed(error: string) | Connected(laterError: Option<string>)

  /** The values the task assigns to the global, in order: the transport
      once it is open, then the exception if one is raised. A normal end
      assigns nothing more, so the global keeps the (closed) transport. */
  function Assignments(run: TaskRun): (a: seq<Global>)
    ensures 1 <= |a| <= 2 && forall i :: 0 <= i < |a| ==> a[i] != Unset
    ensures a[0] == Running <==> run.Connected?
    ensures |a| == 2 <==> run.Connected? && run.laterError.Some?
    ensures |a| == 2 ==> a[1] == Failed(run.laterError.value)
    ensures run.OpenFailed? ==> a == [Failed(run.error)]
  {
    match run
    case OpenFailed(e) => [Failed(e)]
    case Connected(None) => [Running]
    case Connected(Some(e)) => [Running, Failed(e)]
  }

  /** The only moves of the global: from None to a transport or an
      exception, and from a transport to an exception. */
  predicate Moves(a: Global, b: Global) {
    a == b || (a == Unset && b != Unset) || (a == Running && b.Failed?)
  }

  /** Consecutive moves compose: over any history of the global, a later
      value is reachable from an earlier one. Hence the global never returns
      to None once set, and an exception, once stored, stays. */
  lemma {:induction false} HistoryMoves(h: seq<Global>, i: nat, j: nat)
    requires forall k :: 0 <= k < |h| - 1 ==> Moves(h[k], h[k + 1])
    requires i <= j < |h|
    ensures Moves(h[i], h[j])
    ensures h[i] != Unset ==> h[j] != Unset
    ensures h[i].Failed? ==> h[j] == h[i]
  {
    if i < j {
      HistoryMoves(h, i, j - 1);
      assert Moves(h[j - 1], h[j]);
    }
  }

  /** The task's assignments are moves, starting from None. */
  lemma AssignmentsAreMoves(run: TaskRun)
    ensures var a := Assignments(run);
      Moves(Unset, a[0]) && (|a| == 2 ==> Moves(a[0], a[1]) && a[0] != a[1])
  {
  }

  const STARTED: Response := Response(200, [("status", "GATT server task started")])
  const RUNNING: Response := Response(200, [("status", "GATT server running")])
  const NOT_RUNNING: Response := Response(503, [("status", "GATT server not running")])

  function FailedResponse(error: string): Response {
    Response(500, [("status", "GATT server failed"), ("error", error)])
  }

  /** The `RuntimeError` of a second start, turned by the global exception
      handler into a 500 answer whose detail is the exception's text. */
  const ALREADY_RUNNING: Response := Response(500, [("detail", "GATT server task is already running")])

  /** `gatt_server_status`: a total three-way case on the global. */
  function StatusResponse(g: Global): (r: Response)
    ensures r.status == 503 <==> g == Unset
    ensures r.status == 500 <==> g.Failed?
    ensures r.status == 200 <==> g == Running
    ensures g.Failed? ==> r.body == [("status", "GATT server failed"), ("error", g.error)]
  {
    match g
    case Unset => NOT_RUNNING
    case Running => RUNNING
    case Failed(e) => FailedResponse(e)
  }

  /** What `gatt_server_start` answers once the global is no longer None. */
  function StartAnswer(g: Global): (r: Response)
    requires g != Unset
    ensures r.status == 200 <==> g == Running
    ensures r.status == 500 <==> g.Failed?
    ensures g.Failed? ==> r == FailedResponse(g.error)
  {
    if g.Failed? then FailedResponse(g.error) else STARTED
  }

  /** A start and a status read while the global still holds the value the
      start answered from agree: same code, and a failure reports the same
      error text. Once the task moves the global again the two can differ:
      see StartThenLaterFailure. */
  lemma StartAgreesWithStatus(g: Global)
    requires g != Unset
    ensures StartAnswer(g).status == StatusResponse(g).status
    ensures g.Failed? ==> StartAnswer(g) == StatusResponse(g)
  {
  }

  /** The global as the start's poll loop first sees it: the task's first
      assignment, or its second one if that was made before the poll looked
      (`raced`). */
  function Observed(run: TaskRun, raced: bool): (g: Global)
    ensures g != Unset
    ensures g == Running ==> run.Connected?
    ensures run.OpenFailed? ==> g == Failed(run.error)
  {
    var a := Assignments(run);
    if raced && |a| == 2 then a[1] else a[0]
  }

  /** The one server device the task builds: the example table under the
      fixed identity, with the connection listener attached. */
  function ServerDevice(): (d: Device)
    ensures d == CreateDevice(Example, BUMBLE_NAME, BUMBLE_ADDRESS, true).device
    ensures d.config.name == "Bumble" && d.config.address == "F0:F1:F2:F3:F4:F5"
    ensures d.services == ExampleServices() && d.advertisingData.None?
  {
    Device(Config(BUMBLE_NAME, BUMBLE_ADDRESS), ExampleServices(), None, true)
  }

  class Controller {
    var global: Global
    /** The assignments the running task has yet to make. */
    var pending: seq<Global>
    /** Every value the global has held, oldest first. */
    ghost var history: seq<Global>

    ghost predicate Valid()
      reads this
    {
      && |history| > 0 && history[0] == Unset && history[|history| - 1] == global
      && (forall k :: 0 <= k < |history| - 1 ==> Moves(history[k], history[k + 1]))
      && (pending != [] ==> Moves(global, pending[0]))
      && (forall k :: 0 <= k < |pending| - 1 ==> Moves(pending[k], pending[k + 1]))
    }

    constructor ()
      ensures Valid() && global == Unset && pending == [] && history == [Unset]
    {
      global := Unset;
      pending := [];
      history := [Unset];
    }

    /** The server task makes its next assignment, if it has one left. */
    method TaskStep()
      requires Valid()
      modifies this
      ensures Valid()
      ensures old(pending) == [] ==> global == old(global) && pending == [] && history == old(history)
      ensures old(pending) != [] ==>
        global == old(pending[0]) && pending == old(pending[1..]) && history == old(history) + [global]
    {
      if pending != [] {
        global := pending[0];
        pending := pending[1..];
        history := history + [global];
      }
    }

    /** `gatt_server_start`. With the global at None it spawns the task and
        polls until the global is set, then answers from it; otherwise it
        raises "already running", also after a failure, so a failed server
        cannot be started again. */
    method Start(run: TaskRun, raced: bool) returns (resp: Response)
      requires Valid()
      modifies this
      ensures Valid()
      ensures old(global) != Unset ==>
        resp == ALREADY_RUNNING && global == old(global) && pending == old(pending) && history == old(history)
      ensures old(global) == Unset ==>
        && global == Observed(run, raced)
        && resp == StartAnswer(global)
        && var a := Assignments(run);
          && |pending| < |a|
          && history == old(history) + a[..|a| - |pending|]
          && pending == a[|a| - |pending|..]
    {
      if global != Unset {
        return ALREADY_RUNNING;
      }
      var a := Assignments(run);
      ghost var h0 := history;
      pending := a;
      // The poll loop: while the global is None the task keeps running.
      while global == Unset
        invariant Valid()
        invariant (global == Unset && pending == a && history == h0)
          || (global == a[0] && pending == a[1..] && history == h0 + [a[0]])
        decreases |pending|
      {
        TaskStep();
      }
      if raced && pending != [] {
        TaskStep();
      }
      resp := StartAnswer(global);
    }
  }

  /** A fresh server started twice, then asked for its status before the
      task moves the global again: the first start answers from what the
      task stored, the second raises "already running" whatever that was,
      and a status read while the global still holds the value the first
      start answered from agrees with that answer. */
  method StartTwice(run: TaskRun, raced: bool) returns (first: Response, second: Response, status: Response)
    ensures first == StartAnswer(Observed(run, raced))
    ensures second == ALREADY_RUNNING
    ensures status == StatusResponse(Observed(run, raced)) && status.status == first.status
    ensures run.OpenFailed? ==> first == status == FailedResponse(run.error)
  {
    var c := new Controller();
    first := c.Start(run, raced);
    second := c.Start(run, raced);
    status := StatusResponse(c.global);
    StartAgreesWithStatus(c.global);
  }

  /** A start that answers 200 "GATT server task started" does not promise
      a healthy server: when power-on, advertising or the wait for
      termination later raises, the task stores the exception and a later
      status answers 500 with its text. */
  method StartThenLaterFailure(e: string) returns (first: Response, status: Response)
    ensures first == STARTED && first.status == 200
    ensures status == FailedResponse(e) && status.status == 500
  {
    var c := new Controller();
    first := c.Start(Connected(Some(e)), false);
    c.TaskStep();
    status := StatusResponse(c.global);
  }
}
