/**
 * The lifecycle of the single connection slot of a DatabaseConnection, as a
 * pure state machine. The clock is the parameter `now` (one reading per call),
 * and the JDBC driver is abstracted as a source of fresh handle ids together
 * with a success flag `ok` for the one establish a call may attempt.
 *
 * The class in module Jack is proved to follow these functions step by step;
 * the properties of the lifecycle are stated once, here.
 */
module Lifecycle {

  /** Identity of a live transport connection; the driver never issues one twice. */
  type Handle = nat

  datatype Option<T> = None | Some(value: T)

  /** The one failure the lifecycle surfaces: the driver could not establish a connection. */
  datatype Error = ConnectionError

  datatype Result<T> = Ok(value: T) | Err(error: Error)

  /**
   * What the driver has done on this manager's behalf: the id it will hand out
   * next, how many establishes were attempted, how many closes were issued,
   * and which handles those closes were for.
   */
  datatype DriverState = DriverState(nextHandle: nat, establishes: nat, closes: nat, closed: set<Handle>)

  /** The manager's state: the slot, the absolute deadline, the fixed window, and the driver. */
  datatype State = State(conn: Option<Handle>, expiresAt: int, expiration: int, driver: DriverState)

  /** The outcome of one call: what it returned (or the error it raised) and the state after it. */
  datatype Step<T> = Step(result: Result<T>, after: State)

  /** Window used when none is given: four hours, in milliseconds. */
  const DefaultExpiration: int := 14400000

  /** The held handle, if any, was issued by the driver. */
  ghost predicate Valid(s: State) {
    s.conn.Some? ==> s.conn.value < s.driver.nextHandle
  }

  /**
   * Every handle the driver issued is either still held or has been closed,
   * and not both; nothing else was closed, and no handle was closed twice.
   */
  ghost predicate NoLeak(s: State) {
    (forall h: Handle :: h in s.driver.closed <==> h < s.driver.nextHandle && s.conn != Some(h)) &&
    s.driver.closes == |s.driver.closed| &&
    s.driver.closes + (if s.conn.Some? then 1 else 0) == s.driver.nextHandle
  }

  /** An access has to establish a connection: the slot is empty or its lease ran out. */
  predicate NeedsEstablish(s: State, now: int) {
    s.conn.None? || IsExpired(s, now)
  }

  // ---------------------------------------------------------------------------
  // The driver (foreign code): establish and close.

  function Open(d: DriverState, ok: bool): (Result<Handle>, DriverState) {
    if ok then (Ok(d.nextHandle), d.(nextHandle := d.nextHandle + 1, establishes := d.establishes + 1))
    else (Err(ConnectionError), d.(establishes := d.establishes + 1))
  }

  function Close(d: DriverState, h: Handle): DriverState {
    d.(closes := d.closes + 1, closed := d.closed + {h})
  }

  // ---------------------------------------------------------------------------
  // The manager.

  /** The lease is over only once the clock is strictly past the deadline. */
  predicate IsExpired(s: State, now: int) {
    s.expiresAt < now
  }

  /** updateExpiration: the lease restarts at `now`; the slot and the window are untouched. */
  function Touch(s: State, now: int): (r: State)
    ensures r.conn == s.conn && r.expiration == s.expiration && r.driver == s.driver
    ensures forall t :: IsExpired(r, t) <==> now + s.expiration < t
  {
    s.(expiresAt := now + s.expiration)
  }

  /** Construction: the slot is empty and the deadline baseline is `now + expiration`. */
  function Init(expiration: int, now: int, d: DriverState): (s: State)
    ensures s.conn.None? && s.expiration == expiration && s.driver == d
    ensures s.expiresAt == now + expiration
    ensures Valid(s) && (d.closes == d.nextHandle == 0 && d.closed == {} ==> NoLeak(s))
  {
    Touch(State(None, 0, expiration, d), now)
  }

  /**
   * getConnection. An empty slot is filled by one establish; an expired
   * connection is replaced through Reset; a live one is returned as it is.
   * Every successful access restarts the lease.
   */
  function Get(s: State, now: int, ok: bool): (r: Step<Handle>)
    decreases if s.conn.None? then 0 else 2
    ensures r.after.expiration == s.expiration
    // a live connection within its lease: same handle, no driver traffic
    ensures !NeedsEstablish(s, now) ==>
      r.result == Ok(s.conn.value) && r.after == s.(expiresAt := now + s.expiration)
    // an empty or expired slot: exactly one establish, and a close only of the expired handle
    ensures NeedsEstablish(s, now) ==>
      r.after.driver.establishes == s.driver.establishes + 1 &&
      r.after.driver.closes == s.driver.closes + (if s.conn.Some? then 1 else 0) &&
      r.after.driver.closed == s.driver.closed + (if s.conn.Some? then {s.conn.value} else {}) &&
      (r.result.Ok? <==> ok)
    ensures NeedsEstablish(s, now) && ok ==>
      r.result == Ok(s.driver.nextHandle) && r.after.driver.nextHandle == s.driver.nextHandle + 1
    // a replaced connection is replaced by a different one
    ensures Valid(s) && s.conn.Some? && NeedsEstablish(s, now) && r.result.Ok? ==>
      r.result.value != s.conn.value
    ensures NeedsEstablish(s, now) && !ok ==>
      r.after.driver.nextHandle == s.driver.nextHandle
    // success: the handle is held and the lease restarts; failure: the slot is empty
    ensures r.result.Ok? ==> r.after.conn == Some(r.result.value) && r.after.expiresAt == now + s.expiration
    ensures r.result.Err? ==> r.after.conn.None? && r.after.expiresAt == s.expiresAt
    ensures Valid(s) ==> Valid(r.after)
  {
    if s.conn.None? then
      var attempt := Open(s.driver, ok);
      match attempt.0 {
        case Err(e) => Step(Err(e), s.(driver := attempt.1))
        case Ok(h) => Step(Ok(h), Touch(s.(conn := Some(h), driver := attempt.1), now))
      }
    else if IsExpired(s, now) then
      var reset := Reset(s, now, ok);
      if reset.result.Err? then reset
      else Step(reset.result, Touch(reset.after, now))
    else
      Step(Ok(s.conn.value), Touch(s, now))
  }

  /**
   * resetConnection. Closes the held handle, if any (a failed close is
   * ignored), empties the slot and establishes anew, whatever the lease says.
   */
  function Reset(s: State, now: int, ok: bool): (r: Step<Handle>)
    decreases 1
    ensures r.after.expiration == s.expiration
    ensures r.after.driver.establishes == s.driver.establishes + 1
    ensures r.after.driver.closes == s.driver.closes + (if s.conn.Some? then 1 else 0)
    ensures r.after.driver.closed == s.driver.closed + (if s.conn.Some? then {s.conn.value} else {})
    ensures r.result.Ok? <==> ok
    ensures ok ==>
      r.result == Ok(s.driver.nextHandle) && r.after.driver.nextHandle == s.driver.nextHandle + 1 &&
      r.after.conn == Some(s.driver.nextHandle) && r.after.expiresAt == now + s.expiration
    ensures !ok ==>
      r.after.conn.None? && r.after.expiresAt == s.expiresAt &&
      r.after.driver.nextHandle == s.driver.nextHandle
  {
    var d := if s.conn.Some? then Close(s.driver, s.conn.value) else s.driver;
    Get(s.(conn := None, driver := d), now, ok)
  }

  /**
   * connect. Establishes a connection only when the slot is empty and then
   * reports true; a held connection, even an expired one, is left alone.
   */
  function Connect(s: State, now: int, ok: bool): (r: Step<bool>)
    ensures s.conn.Some? ==> r == Step(Ok(false), s)
    ensures s.conn.None? ==>
      r.after.expiration == s.expiration &&
      r.after.driver.establishes == s.driver.establishes + 1 &&
      r.after.driver.closes == s.driver.closes && r.after.driver.closed == s.driver.closed &&
      (r.result.Ok? <==> ok)
    ensures s.conn.None? && ok ==>
      r.result == Ok(true) && r.after.conn == Some(s.driver.nextHandle) &&
      r.after.expiresAt == now + s.expiration &&
      r.after.driver.nextHandle == s.driver.nextHandle + 1
    ensures s.conn.None? && !ok ==>
      r.after == s.(driver := s.driver.(establishes := s.driver.establishes + 1))
  {
    if s.conn.None? then
      var got := Get(s, now, ok);
      match got.result
      case Ok(h) => Step(Ok(true), got.after.(conn := Some(h)))
      case Err(e) => Step(Err(e), got.after)
    else
      Step(Ok(false), s)
  }

  /**
   * The window is stored unchecked. With a negative window, a connection
   * that an access just established or renewed counts as expired at every
   * later access whose clock has not gone back, so that access closes it and
   * establishes again.
   */
  lemma NegativeWindowReconnects(s: State, now: int, later: int, ok: bool, ok': bool)
    requires s.expiration < 0 && now <= later
    requires Get(s, now, ok).result.Ok?
    ensures var first := Get(s, now, ok).after;
      var second := Get(first, later, ok');
      second.after.driver.closes == first.driver.closes + 1 &&
      second.after.driver.establishes == first.driver.establishes + 1
  {
  }

  // ---------------------------------------------------------------------------
  // Sequences of calls.

  datatype Call = GetCall(now: int, ok: bool) | ResetCall(now: int, ok: bool) | ConnectCall(now: int, ok: bool)

  function Apply(s: State, c: Call): State {
    match c
    case GetCall(now, ok) => Get(s, now, ok).after
    case ResetCall(now, ok) => Reset(s, now, ok).after
    case ConnectCall(now, ok) => Connect(s, now, ok).after
  }

  function Run(s: State, calls: seq<Call>): State
    decreases |calls|
  {
    if calls == [] then s else Run(Apply(s, calls[0]), calls[1..])
  }

  /** A call that closes the held handle and may establish a fresh one keeps the bookkeeping exact. */
  lemma ReplaceKeepsNoLeak(s: State, t: State)
    requires Valid(s) && NoLeak(s)
    requires t.driver.closed == s.driver.closed + (if s.conn.Some? then {s.conn.value} else {})
    requires t.driver.closes == s.driver.closes + (if s.conn.Some? then 1 else 0)
    requires t.conn == None || t.conn == Some(s.driver.nextHandle)
    requires t.driver.nextHandle == s.driver.nextHandle + (if t.conn.Some? then 1 else 0)
    ensures NoLeak(t)
  {
    if s.conn.Some? {
      assert s.conn.value !in s.driver.closed;
    }
    forall h: Handle
      ensures h in t.driver.closed <==> h < t.driver.nextHandle && t.conn != Some(h)
    {
      assert h in s.driver.closed <==> h < s.driver.nextHandle && s.conn != Some(h);
    }
  }

  /** One call of any kind keeps the invariants. */
  lemma ApplyKeepsInvariants(s: State, c: Call)
    requires Valid(s) && NoLeak(s)
    ensures Apply(s, c).expiration == s.expiration
    ensures Valid(Apply(s, c)) && NoLeak(Apply(s, c))
    ensures Apply(s, c).driver.establishes >= s.driver.establishes
  {
    var t := Apply(s, c);
    match c
    case GetCall(now, ok) =>
      if NeedsEstablish(s, now) { ReplaceKeepsNoLeak(s, t); }
    case ResetCall(now, ok) =>
      ReplaceKeepsNoLeak(s, t);
    case ConnectCall(now, ok) =>
      if s.conn.None? { ReplaceKeepsNoLeak(s, t); }
  }

  /**
   * Over any sequence of calls the window never changes, the held handle is
   * one the driver issued, every issued handle is either held or has been
   * closed exactly once, and establishes never decrease.
   */
  lemma {:induction false} RunKeepsInvariants(s: State, calls: seq<Call>)
    requires Valid(s) && NoLeak(s)
    ensures Run(s, calls).expiration == s.expiration
    ensures Valid(Run(s, calls)) && NoLeak(Run(s, calls))
    ensures Run(s, calls).driver.establishes >= s.driver.establishes
    decreases |calls|
  {
    if calls != [] {
      ApplyKeepsInvariants(s, calls[0]);
      RunKeepsInvariants(Apply(s, calls[0]), calls[1..]);
    }
  }

  /** The results of getConnection calls at the given times, and the state after them. */
  datatype Trace = Trace(results: seq<Result<Handle>>, after: State)

  function Gets(s: State, times: seq<int>, ok: bool): Trace
    decreases |times|
  {
    if times == [] then Trace([], s)
    else
      var step := Get(s, times[0], ok);
      var rest := Gets(step.after, times[1..], ok);
      Trace([step.result] + rest.results, rest.after)
  }

  /**
   * A held connection accessed again and again, each time before the lease
   * of the previous access ran out, is returned every time, and the driver
   * is never asked to establish or close anything.
   */
  lemma {:induction false} StableWithinWindow(s: State, times: seq<int>, ok: bool)
    requires s.conn.Some?
    requires |times| > 0 ==> times[0] <= s.expiresAt
    requires forall i :: 0 < i < |times| ==> times[i] <= times[i - 1] + s.expiration
    ensures |Gets(s, times, ok).results| == |times|
    ensures forall i :: 0 <= i < |times| ==> Gets(s, times, ok).results[i] == Ok(s.conn.value)
    ensures Gets(s, times, ok).after.conn == s.conn && Gets(s, times, ok).after.driver == s.driver
    ensures |times| > 0 ==> Gets(s, times, ok).after.expiresAt == times[|times| - 1] + s.expiration
    decreases |times|
  {
    if times != [] {
      var next := Get(s, times[0], ok).after;
      forall i | 0 < i < |times[1..]|
        ensures times[1..][i] <= times[1..][i - 1] + next.expiration
      {
        assert times[1..][i] == times[i + 1] && times[1..][i - 1] == times[i];
      }
      StableWithinWindow(next, times[1..], ok);
    }
  }
}
