# DatabaseConnection lifecycle, in Dafny

A model of the connection lifecycle of `com.rapleaf.jack.DatabaseConnection`.
The class holds one JDBC connection slot (`conn`), a fixed expiration window
(`expiration`) and an absolute deadline (`expiresAt`):

- `getConnection` connects lazily when the slot is empty.
- When the deadline has passed, `getConnection` replaces the connection through `resetConnection`.
- Otherwise `getConnection` returns the held connection.
- Every successful access moves the deadline to `now + expiration`.
- `resetConnection` closes the held connection (ignoring a failed close), empties the slot and connects again.
- `connect` connects only when the slot is empty and never looks at the deadline.

Files:

- `lifecycle.dfy`, module `Lifecycle`: the state machine as pure functions over a `State` value.
  The slot, the deadline, the window and a `DriverState` are its fields.
  `DriverState` is the next fresh handle id, counters of establishes and closes, and the set of
  handles closed.
  Every property of the lifecycle is stated and proved here.
  This includes two lemmas over sequences of calls.
- `database_connection.dfy`, module `Jack`: the Java class as a Dafny class `DatabaseConnection`.
  It has the same fields and methods, and the same mutual recursion between
  `GetConnection` and `ResetConnection`.
  Each method is proved to leave the object in the state, and to return the result, that its
  `Lifecycle` counterpart gives: `GetConnection` follows `Get`, `ResetConnection` follows `Reset`,
  `Connect` follows `Connect`, `UpdateExpiration` follows `Touch`, and both constructors follow `Init`.
  The expiry test `isExpired` is `Lifecycle.IsExpired` in the model and `IsExpired` in the class.
  The JDBC layer is the class `Driver`: establishing hands out fresh ids, and each close is counted and records its handle.
- `scenarios.dfy`, module `Scenarios`: client code that relies only on those method contracts.
  It covers the reconnect after the window, the inclusive deadline, recovery after a failed
  establish, and `connect` ignoring expiry.

The environment is abstracted as follows:

- The clock is a parameter `now`. The Java code reads it up to three times in one call: an
  expired `getConnection` reads it at line 151, at line 155 in the nested `getConnection` reached
  from line 109, and at line 155 again from line 89. The model uses one reading for all of them.
- Whether the driver's handshake succeeds is a parameter `ok`.
- Whether a close succeeds is chosen arbitrarily by `Driver.Close`, and the manager discards it.
- Errors are a `Result` value whose only error is `ConnectionError`.

Two details of the code matter:

- A connection is expired only when `expiresAt < now` (line 151). At exactly the deadline it is
  still used, so with a 100 ms window and accesses at 0, 50 and 150 the third access reuses the
  handle (`Scenarios.DeadlineIsInclusive`). Only an access after 150 reconnects
  (`Scenarios.ReconnectAfterWindow`).
- The constructor stores the window unchecked (line 71). A negative window is accepted; see
  `Lifecycle.NegativeWindowReconnects`.

## Model

| member | source | states |
|---|---|---|
| Lifecycle.Touch | src/java/com/rapleaf/jack/DatabaseConnection.java:150-156 | moving the deadline keeps the slot, the window and the driver; afterwards the connection counts as expired, by `IsExpired` (the strict test `expiresAt < now`), at exactly the times strictly after `now + expiration` |
| Lifecycle.Init | src/java/com/rapleaf/jack/DatabaseConnection.java:48-72 | construction leaves the slot empty, keeps the given window unchecked and sets the deadline to `now + expiration`; the state is valid and, with a fresh driver, leaks nothing |
| Lifecycle.Get | src/java/com/rapleaf/jack/DatabaseConnection.java:81-94 | a live connection within its lease (deadline >= now) is returned with no establish or close, and only the deadline moves; an empty or expired slot costs exactly one establish, plus one close of the expired handle when one was held; success returns the driver's fresh handle, different from the replaced one, and restarts the lease; failure leaves the slot empty and the deadline as it was; the window never changes |
| Lifecycle.Reset | src/java/com/rapleaf/jack/DatabaseConnection.java:100-110 | whatever the deadline says, one close of the held handle if there is one, and exactly one establish; success holds and returns the fresh handle with the lease restarted; failure leaves the slot empty |
| Lifecycle.Connect | src/java/com/rapleaf/jack/DatabaseConnection.java:118-124 | a held connection, expired or not, is left untouched and `false` is returned; an empty slot costs exactly one establish and no close, and returns `true` with the fresh handle held and the lease restarted, or the error with only the establish counted |
| Lifecycle.RunKeepsInvariants | src/java/com/rapleaf/jack/DatabaseConnection.java:81-124 | over any sequence of getConnection, resetConnection and connect calls the window never changes, the held handle is one the driver issued, every issued handle is either held or in the set of closed handles and not both, nothing else is closed, the number of closes equals the number of closed handles (none closed twice), and establishes never decrease |
| Lifecycle.ApplyKeepsInvariants | src/java/com/rapleaf/jack/DatabaseConnection.java:81-124 | one getConnection, resetConnection or connect call keeps the window, keeps the held handle one the driver issued, and keeps every issued handle either held or closed exactly once |
| Lifecycle.StableWithinWindow | src/java/com/rapleaf/jack/DatabaseConnection.java:86-90 | repeated getConnection calls, each no later than the deadline left by the previous one, all return the held handle, make no establish or close, and leave the deadline at the last access plus the window |
| Lifecycle.NegativeWindowReconnects | src/java/com/rapleaf/jack/DatabaseConnection.java:71-72 | with the unchecked negative window, the access after a successful one (clock not going back) closes and re-establishes |
| Jack.Driver.Open | src/java/com/rapleaf/jack/DatabaseConnection.java:84-85 | an establish is counted; on success it returns the driver's next id, which is then used up |
| Jack.Driver.Close | src/java/com/rapleaf/jack/DatabaseConnection.java:101-107 | a close of the given handle is counted and recorded whether or not it fails |
| Jack.DatabaseConnection.constructor | src/java/com/rapleaf/jack/DatabaseConnection.java:54-73 | keeps the resolved URL and credentials and the driver; the state is `Lifecycle.Init` of the window and the clock |
| Jack.DatabaseConnection.Default | src/java/com/rapleaf/jack/DatabaseConnection.java:46-52 | as the constructor, with the four-hour default window |
| Jack.DatabaseConnection.UpdateExpiration | src/java/com/rapleaf/jack/DatabaseConnection.java:154-156 | the new state is `Lifecycle.Touch` of the old one |
| Jack.DatabaseConnection.GetConnection | src/java/com/rapleaf/jack/DatabaseConnection.java:81-94 | keeps the object valid; result and new state are those of `Lifecycle.Get` on the old state |
| Jack.DatabaseConnection.ResetConnection | src/java/com/rapleaf/jack/DatabaseConnection.java:100-110 | keeps the object valid; result and new state are those of `Lifecycle.Reset` on the old state |
| Jack.DatabaseConnection.Connect | src/java/com/rapleaf/jack/DatabaseConnection.java:118-124 | keeps the object valid; result and new state are those of `Lifecycle.Connect` on the old state |
| Scenarios.ReconnectAfterWindow | src/java/com/rapleaf/jack/DatabaseConnection.java:81-110 | window 100: accesses at 0 and 50 return the same handle; an access at 151 returns a different one after one close, of the first handle, and a second establish |
| Scenarios.DeadlineIsInclusive | src/java/com/rapleaf/jack/DatabaseConnection.java:150-152 | window 100: accesses at 0, 50 and 150 all return the same handle with a single establish |
| Scenarios.RecoverAfterFailedEstablish | src/java/com/rapleaf/jack/DatabaseConnection.java:83-92 | a failed first establish surfaces `ConnectionError` and leaves the slot empty; the next access establishes normally |
| Scenarios.ConnectIgnoresExpiry | src/java/com/rapleaf/jack/DatabaseConnection.java:118-124 | connect returns true on an empty slot, then false on an expired connection without closing it; the next getConnection replaces it with handle 1 |

## Left out

- Loading `config/environment.yml` and `config/database.yml` and assembling the MySQL URL
  (lines 55-70) is file I/O through a YAML library. The URL, user name and password are
  constructor inputs, and the configuration failure of that step is not modelled.
- `Class.forName` and the handshake of `DriverManager.getConnection` are foreign code. They are
  the `Driver` class: a fresh id on success, an error on failure, as the caller's flag says.
- `getStatement` and `getPreparedStatement` (lines 130-148) are pass-throughs to JDBC. Each
  first calls `getConnection`; the statement objects they return are not modelled.
- `System.currentTimeMillis` is the parameter `now`. The overflow of the `long` sum
  `now + expiration` is not modelled; integers are unbounded.
- Exceptions are the `Result` type. When the reconnect inside an expired access fails, Java wraps
  the driver's exception in a `RuntimeException` twice; the model has the one `ConnectionError`.
- `Serializable` and the `transient` marker on `conn` (lines 39, 48) are not modelled. A
  deserialised object would start with an empty slot.
- The class is not synchronised. Only sequential use is modelled, one call at a time.
- `Driver` objects may be shared between managers, as Java's `DriverManager` is.
  `Lifecycle.NoLeak` presumes one driver per manager; the class invariant `Valid` does not need it.
