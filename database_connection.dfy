/**
 * The DatabaseConnection class: one connection slot, a deadline, a fixed
 * expiration window, and the driver it asks for connections. Each method
 * updates the fields as the Java class does and is proved to perform exactly
 * its step of the Lifecycle state machine: GetConnection is Get,
 * ResetConnection is Reset, Connect is Connect, UpdateExpiration is Touch,
 * and the constructors are Init.
 */
module Jack {
  import opened Lifecycle

  /**
   * The JDBC layer seen from the manager: it establishes connections, each
   * with a fresh id, and closes them. Whether a given establish succeeds is
   * the flag `ok`; whether a close succeeds is the driver's own business.
   */
  class Driver {
    var nextHandle: nat
    ghost var establishes: nat
    ghost var closes: nat
    ghost var closed: set<Handle>

    ghost function Model(): DriverState
      reads this
    {
      Lifecycle.DriverState(nextHandle, establishes, closes, closed)
    }

    constructor ()
      ensures Model() == Lifecycle.DriverState(0, 0, 0, {})
    {
      nextHandle, establishes, closes, closed := 0, 0, 0, {};
    }

    /** DriverManager.getConnection: a fresh handle, or an error when the handshake fails. */
    method Open(url: string, username: string, password: string, ok: bool) returns (r: Result<Handle>)
      modifies this
      ensures (r, Model()) == Lifecycle.Open(old(Model()), ok)
      ensures r.Ok? ==> r.value == old(nextHandle) && r.value < nextHandle
    {
      establishes := establishes + 1;
      if ok {
        r := Ok(nextHandle);
        nextHandle := nextHandle + 1;
      } else {
        r := Err(ConnectionError);
      }
    }

    /** Connection.close: recorded whether or not it succeeds; `failed` reports which. */
    method Close(h: Handle) returns (failed: bool)
      modifies this
      ensures Model() == Lifecycle.Close(old(Model()), h)
    {
      closes := closes + 1;
      closed := closed + {h};
      failed :| true;
    }
  }

  class DatabaseConnection {
    const mysqlUrl: string
    const username: string
    const password: string
    const expiration: int
    const driver: Driver
    var expiresAt: int
    var conn: Option<Handle>

    /** The lifecycle state this object stands for. */
    ghost function Model(): State
      reads this, driver
    {
      State(conn, expiresAt, expiration, driver.Model())
    }

    ghost predicate Valid()
      reads this, driver
    {
      Lifecycle.Valid(Model())
    }

    /**
     * The resolved configuration is taken as given; the window is stored
     * unchecked and the deadline baseline is set at construction, before any
     * connection exists.
     */
    constructor (mysqlUrl: string, username: string, password: string, expiration: int, driver: Driver, now: int)
      ensures this.mysqlUrl == mysqlUrl && this.username == username && this.password == password
      ensures this.driver == driver
      ensures Model() == Init(expiration, now, driver.Model())
      ensures Valid()
    {
      this.mysqlUrl := mysqlUrl;
      this.username := username;
      this.password := password;
      this.expiration := expiration;
      this.driver := driver;
      conn := None;
      new;
      UpdateExpiration(now);
    }

    /** The one-argument constructor: the window defaults to four hours. */
    constructor Default(mysqlUrl: string, username: string, password: string, driver: Driver, now: int)
      ensures this.mysqlUrl == mysqlUrl && this.username == username && this.password == password
      ensures this.driver == driver
      ensures Model() == Init(DefaultExpiration, now, driver.Model())
      ensures Valid()
    {
      this.mysqlUrl := mysqlUrl;
      this.username := username;
      this.password := password;
      this.expiration := DefaultExpiration;
      this.driver := driver;
      conn := None;
      new;
      UpdateExpiration(now);
    }

    predicate IsExpired(now: int)
      reads this
    {
      expiresAt < now
    }

    method UpdateExpiration(now: int)
      modifies this
      ensures Model() == Touch(old(Model()), now)
    {
      expiresAt := now + expiration;
    }

    method GetConnection(now: int, ok: bool) returns (r: Result<Handle>)
      requires Valid()
      modifies this, driver
      decreases if conn.None? then 0 else 2
      ensures Valid()
      ensures r == Get(old(Model()), now, ok).result
      ensures Model() == Get(old(Model()), now, ok).after
    {
      if conn.None? {
        var attempt := driver.Open(mysqlUrl, username, password, ok);
        if attempt.Err? {
          return Err(attempt.error);
        }
        conn := Some(attempt.value);
      } else if IsExpired(now) {
        var reset := ResetConnection(now, ok);
        if reset.Err? {
          return reset;
        }
      }
      UpdateExpiration(now);
      r := Ok(conn.value);
    }

    method ResetConnection(now: int, ok: bool) returns (r: Result<Handle>)
      requires Valid()
      modifies this, driver
      decreases 1
      ensures Valid()
      ensures r == Reset(old(Model()), now, ok).result
      ensures Model() == Reset(old(Model()), now, ok).after
    {
      if conn.Some? {
        var closeFailed := driver.Close(conn.value);
      }
      conn := None;
      r := GetConnection(now, ok);
    }

    method Connect(now: int, ok: bool) returns (r: Result<bool>)
      requires Valid()
      modifies this, driver
      ensures Valid()
      ensures r == Lifecycle.Connect(old(Model()), now, ok).result
      ensures Model() == Lifecycle.Connect(old(Model()), now, ok).after
    {
      if conn.None? {
        var got := GetConnection(now, ok);
        if got.Err? {
          return Err(got.error);
        }
        conn := Some(got.value);
        return Ok(true);
      }
      return Ok(false);
    }
  }
}
