/**
 * Clients of DatabaseConnection that use nothing but the contracts of its
 * methods. Each scenario fixes the clock readings and the driver's answers.
 */
module Scenarios {
  import opened Lifecycle
  import opened Jack

  /**
   * Window 100 ms: an access at t = 0 establishes handle A, one at t = 50 gets
   * A back and moves the deadline to 150, one at t = 151 closes A and
   * establishes a different handle B.
   */
  method ReconnectAfterWindow() returns (a: Result<Handle>, b: Result<Handle>, c: Result<Handle>)
    ensures a.Ok? && b == a
    ensures c.Ok? && c.value != a.value
  {
    var driver := new Driver();
    var db := new DatabaseConnection("jdbc:mysql://localhost/db", "user", "secret", 100, driver, 0);
    a := db.GetConnection(0, true);
    assert driver.establishes == 1 && driver.closes == 0;
    b := db.GetConnection(50, true);
    assert driver.establishes == 1 && driver.closes == 0;
    c := db.GetConnection(151, true);
    assert driver.establishes == 2 && driver.closes == 1 && driver.closed == {a.value};
  }

  /**
   * At exactly the deadline the lease still holds: with a 100 ms window,
   * accesses at t = 0, 50 and 150 all get the same handle, because the
   * access at t = 50 moved the deadline to 150 and only a clock strictly
   * past it counts as expired.
   */
  method DeadlineIsInclusive() returns (a: Result<Handle>, b: Result<Handle>, c: Result<Handle>)
    ensures a.Ok? && b == a && c == a
  {
    var driver := new Driver();
    var db := new DatabaseConnection("jdbc:mysql://localhost/db", "user", "secret", 100, driver, 0);
    a := db.GetConnection(0, true);
    b := db.GetConnection(50, true);
    c := db.GetConnection(150, true);
    assert driver.establishes == 1 && driver.closes == 0;
  }

  /**
   * The first handshake fails: the error is surfaced and the slot stays
   * empty, so the next access establishes as if nothing had happened.
   */
  method RecoverAfterFailedEstablish() returns (a: Result<Handle>, b: Result<Handle>)
    ensures a == Err(ConnectionError)
    ensures b.Ok?
  {
    var driver := new Driver();
    var db := new DatabaseConnection.Default("jdbc:mysql://localhost/db", "user", "secret", driver, 0);
    a := db.GetConnection(0, false);
    assert db.conn.None?;
    b := db.GetConnection(10, true);
    assert db.conn == Some(b.value) && driver.establishes == 2 && driver.closes == 0;
  }

  /**
   * connect reports true only for an empty slot, and leaves a held connection
   * alone even when its lease has run out; the next getConnection replaces it.
   */
  method ConnectIgnoresExpiry() returns (first: Result<bool>, second: Result<bool>, h: Result<Handle>)
    ensures first == Ok(true) && second == Ok(false)
    ensures h == Ok(1)
  {
    var driver := new Driver();
    var db := new DatabaseConnection("jdbc:mysql://localhost/db", "user", "secret", 100, driver, 0);
    first := db.Connect(0, true);
    second := db.Connect(500, true);
    assert db.conn == Some(0) && db.expiresAt == 100 && driver.closes == 0;
    h := db.GetConnection(500, true);
  }
}
