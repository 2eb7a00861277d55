/**
  Database configurations and connections, as values.

  A configuration is what `SQLiteDatabaseConfiguration` carries; a connection is the part of a
  `SQLiteConnection` that the connection pool and the configuration setters can observe.
 */
module Configuration {

  /** A custom function wrapper. The wrapper class does not override `equals`, so a wrapper is its identity. */
  type Function = nat

  datatype Config = Config(
    path: string,
    openFlags: int,
    maxSqlCacheSize: int,
    locale: string,
    foreignKeys: bool,
    functions: seq<Function>)

  const ENABLE_WRITE_AHEAD_LOGGING := 0x20000000

  /** What the library is built with: whether a codec is compiled in, and the pool size set for WAL mode. */
  datatype Build = Build(codec: bool, walPoolSize: int)

  /** The pool size used for databases in write-ahead-logging mode: never less than two. */
  function WalPoolSize(build: Build): (size: int)
    ensures size >= 2 && size >= build.walPoolSize && (build.walPoolSize >= 2 ==> size == build.walPoolSize)
  {
    if build.walPoolSize > 2 then build.walPoolSize else 2
  }

  /** Bit 29 of a 32-bit flag word; flooring division reads it off negative words too. */
  predicate HasWal(flags: int) {
    flags / ENABLE_WRITE_AHEAD_LOGGING % 2 == 1
  }

  /** Whether two flag words differ in the write-ahead-logging bit. */
  predicate WalDiffers(a: int, b: int) {
    HasWal(a) != HasWal(b)
  }

  /** One connection, unless the database is in WAL mode and there is no codec: then at least two. */
  function MaxPoolSize(build: Build, config: Config): (max: int)
    ensures max >= 1
    ensures build.codec || !HasWal(config.openFlags) ==> max == 1
    ensures !build.codec && HasWal(config.openFlags) ==>
              max >= 2 && max >= build.walPoolSize && (build.walPoolSize >= 2 ==> max == build.walPoolSize)
  {
    if !build.codec && HasWal(config.openFlags) then WalPoolSize(build) else 1
  }

  predicate Distinct<T(==)>(s: seq<T>) {
    forall i, j :: 0 <= i < j < |s| ==> s[i] != s[j]
  }

  /**
    A connection. `registered` lists the custom functions handed to the native layer, in order and with
    repetitions; `readOnly` is the mode set by the request that holds the connection.
   */
  datatype Conn = Conn(
    id: nat,
    primary: bool,
    config: Config,
    registered: seq<Function>,
    readOnly: bool)

  /** A connection that has just been opened: its own copy of the configuration, every function registered. */
  function Opened(id: nat, primary: bool, config: Config): Conn {
    Conn(id, primary, config, config.functions, false)
  }

  /** The functions of `wanted` that do not occur in `known`, in order. */
  function Missing(wanted: seq<Function>, known: seq<Function>): seq<Function> {
    if wanted == [] then []
    else (if wanted[0] in known then [] else [wanted[0]]) + Missing(wanted[1..], known)
  }

  /** A connection after it was reconfigured in place without an exception. */
  function Reconfigured(c: Conn, config: Config): Conn {
    Conn(c.id, c.primary, config, c.registered + Missing(config.functions, c.config.functions), false)
  }

  /** `c` carries exactly `config`, and each of its functions is registered once. */
  predicate Current(c: Conn, config: Config) {
    c.config == config && c.registered == config.functions
  }

  /** `c` was current for an earlier configuration that `config` extends without touching the open flags. */
  predicate Outdated(c: Conn, config: Config) {
    && c.config.path == config.path
    && c.config.openFlags == config.openFlags
    && c.config.functions <= config.functions
    && c.registered == c.config.functions
  }

  lemma {:induction false} MissingSkips(known: seq<Function>, seen: seq<Function>, rest: seq<Function>)
    requires forall f :: f in seen ==> f in known
    ensures Missing(seen + rest, known) == Missing(rest, known)
  {
    if seen == [] {
      assert seen + rest == rest;
    } else {
      assert (seen + rest)[0] == seen[0] && (seen + rest)[1..] == seen[1..] + rest;
      MissingSkips(known, seen[1..], rest);
    }
  }

  lemma {:induction false} MissingOfUnknown(wanted: seq<Function>, known: seq<Function>)
    requires forall f :: f in wanted ==> f !in known
    ensures Missing(wanted, known) == wanted
  {
    if wanted != [] {
      MissingOfUnknown(wanted[1..], known);
    }
  }

  /** Reconfiguring an outdated connection registers exactly the functions it lacks, each once. */
  lemma ReconfigureMakesCurrent(c: Conn, config: Config)
    requires Outdated(c, config) && Distinct(config.functions)
    ensures Current(Reconfigured(c, config), config)
    ensures !WalDiffers(c.config.openFlags, config.openFlags)
  {
    var known := c.config.functions;
    var added := config.functions[|known|..];
    assert config.functions == known + added;
    MissingSkips(known, known, added);
    forall f | f in added ensures f !in known {
      var j :| 0 <= j < |added| && added[j] == f;
      assert config.functions[|known| + j] == f;
    }
    MissingOfUnknown(added, known);
  }
}
