/**
  The configuration setters of `SQLiteDatabase`: each changes the database's own configuration, hands it to the
  pool, and undoes the change if the pool throws.
 */
module Database {
  import opened Configuration
  import opened DatabaseConfiguration
  import opened PoolModel
  import opened ConnectionPool
  import Runs = PoolRuns

  const MAX_SQL_CACHE_SIZE := 100

  predicate IsReadOnly(flags: int) {
    flags % 2 == 1
  }

  /** `flags & ~OPEN_READ_MASK | OPEN_READWRITE`. */
  function ReadWrite(flags: int): int {
    flags - flags % 2
  }

  /** `flags | ENABLE_WRITE_AHEAD_LOGGING`. */
  function WithWal(flags: int): int {
    if HasWal(flags) then flags else flags + ENABLE_WRITE_AHEAD_LOGGING
  }

  /** `flags & ~ENABLE_WRITE_AHEAD_LOGGING`. */
  function WithoutWal(flags: int): int {
    if HasWal(flags) then flags - ENABLE_WRITE_AHEAD_LOGGING else flags
  }

  /** Setting and clearing the WAL bit undo each other on flags that do not, respectively do, have it. */
  lemma WalBitRoundTrip(flags: int)
    ensures HasWal(WithWal(flags)) && !HasWal(WithoutWal(flags))
    ensures !HasWal(flags) ==> WithoutWal(WithWal(flags)) == flags
    ensures HasWal(flags) ==> WithWal(WithoutWal(flags)) == flags
  {
  }

  /** A flag word taken apart: bit 29 is write-ahead logging, bit 0 is read-only, and each change is to its own bit. */
  lemma FlagBits(high: int, wal: int, middle: int, readOnly: int)
    requires 0 <= wal <= 1 && 0 <= middle < 0x10000000 && 0 <= readOnly <= 1
    ensures var word := (w: int, r: int) => high * 0x40000000 + w * 0x20000000 + middle * 2 + r;
            var flags := word(wal, readOnly);
            && (HasWal(flags) <==> wal == 1) && (IsReadOnly(flags) <==> readOnly == 1)
            && ReadWrite(flags) == word(wal, 0)
            && WithWal(flags) == word(1, readOnly) && WithoutWal(flags) == word(0, readOnly)
  {
    var word := (w: int, r: int) => high * 0x40000000 + w * 0x20000000 + middle * 2 + r;
    WordBits(high, wal, middle, readOnly);
    hide HasWal;
    assert WithWal(word(wal, readOnly)) == word(1, readOnly) && WithoutWal(word(wal, readOnly)) == word(0, readOnly);
  }

  lemma WordBits(high: int, wal: int, middle: int, readOnly: int)
    requires 0 <= wal <= 1 && 0 <= middle < 0x10000000 && 0 <= readOnly <= 1
    ensures var flags := high * 0x40000000 + wal * 0x20000000 + middle * 2 + readOnly;
            (HasWal(flags) <==> wal == 1) && flags % 2 == readOnly
  {
    var flags := high * 0x40000000 + wal * 0x20000000 + middle * 2 + readOnly;
    assert flags == (high * 2 + wal) * 0x20000000 + (middle * 2 + readOnly);
    Quotient(high * 2 + wal, middle * 2 + readOnly);
    LastBit(high, wal);
    assert flags == (high * 0x20000000 + wal * 0x10000000 + middle) * 2 + readOnly;
    LastBit(high * 0x20000000 + wal * 0x10000000 + middle, readOnly);
  }

  lemma Quotient(q: int, r: int)
    requires 0 <= r < ENABLE_WRITE_AHEAD_LOGGING
    ensures (q * ENABLE_WRITE_AHEAD_LOGGING + r) / ENABLE_WRITE_AHEAD_LOGGING == q
  {
  }

  lemma LastBit(n: int, bit: int)
    requires 0 <= bit <= 1
    ensures (n * 2 + bit) % 2 == bit
  {
  }

  /** Leaving read-only mode does not touch the WAL bit. */
  lemma ReadWriteKeepsWal(flags: int)
    ensures HasWal(ReadWrite(flags)) <==> HasWal(flags)
    ensures IsReadOnly(flags) <==> ReadWrite(flags) != flags
  {
    var low := flags % 0x40000000 % 0x20000000;
    FlagBits(flags / 0x40000000, flags % 0x40000000 / 0x20000000, low / 2, low % 2);
    var w := ReadWrite(flags) % 0x40000000;
    FlagBits(ReadWrite(flags) / 0x40000000, w / 0x20000000, w % 0x20000000 / 2, 0);
  }

  datatype Result = Returned(value: bool) | Thrown

  class SQLiteDatabase {
    const configuration: SQLiteDatabaseConfiguration
    var pool: SQLiteConnectionPool?
    var hasAttachedDatabases: bool

    /** The number of function wrappers created so far; a new wrapper differs from all of them. */
    var wrappers: nat

    /**
      Lock-step: the pool runs under exactly the database's configuration, and the two configurations share
      neither themselves nor their function lists.
     */
    ghost predicate Valid()
      reads this, configuration, configuration.customFunctions, Reach()
    {
      && (forall f :: f in configuration.customFunctions.items ==> f < wrappers)
      && Distinct(configuration.customFunctions.items)
      && (pool != null ==>
            && pool.Valid() && Requests.Inv(pool.Abs())
            && pool.configuration != configuration
            && pool.configuration.customFunctions != configuration.customFunctions
            && pool.configuration.Value() == configuration.Value())
    }

    ghost function Reach(): set<object>
      reads this, pool
    {
      if pool == null then {}
      else {pool, pool.configuration, pool.configuration.customFunctions} + pool.users
           + (set n | n in pool.queue) + (set n | n in pool.free)
    }

    constructor (path: string, openFlags: int, defaultLocale: string)
      ensures Valid() && pool == null
      ensures configuration.Value() == Config(path, openFlags, 25, defaultLocale, false, [])
      ensures fresh(configuration) && fresh(configuration.customFunctions)
    {
      configuration := new SQLiteDatabaseConfiguration(path, openFlags, defaultLocale);
      pool, hasAttachedDatabases, wrappers := null, false, 0;
    }

    /** Opens the pool with a copy of the database's configuration; if that throws, the database stays closed. */
    method Open(build: Build, env: Env) returns (threw: bool)
      requires Valid() && pool == null
      modifies this`pool
      ensures Valid()
      ensures threw <==> pool == null
      ensures !threw ==> fresh(pool) && pool.Abs() == Start(configuration.Value(), build)
    {
      hide SQLiteConnectionPool.Valid, Requests.Inv, MaxPoolSize, HasWal;
      var candidate := new SQLiteConnectionPool(configuration, build);
      threw := candidate.OpenPool(env);
      if !threw {
        pool := candidate;
        Runs.StartHasInv(configuration.Value(), build);
      }
    }

    /** The part shared by all setters: hand the changed configuration to the pool. */
    method Reconfigure(env: Env, ghost was: Config) returns (threw: bool)
      requires pool != null && pool.Valid() && Requests.Inv(pool.Abs())
      requires pool.configuration != configuration
      requires pool.configuration.customFunctions != configuration.customFunctions
      requires pool.configuration.Value() == was && Extends(configuration.Value(), was)
      modifies pool, pool.configuration, pool.configuration.customFunctions, pool.users
      ensures pool.Valid() && Requests.Inv(pool.Abs())
      ensures pool.Abs() == ReconfigureAll(old(pool.Abs()), configuration.Value(), env)
      ensures configuration.Value() == old(configuration.Value())
      ensures pool.configuration.Value() == if threw then was else configuration.Value()
      ensures threw <==> || !old(pool.isOpen)
                         || (old(pool.acquired) != map[] && (|| WalDiffers(configuration.openFlags, was.openFlags)
                                                             || configuration.foreignKeys != was.foreignKeys))
                         || (configuration.openFlags != was.openFlags && !env.opens(old(pool.nextConnectionId)))
      ensures pool.users == old(pool.users) && pool.isOpen == old(pool.isOpen)
    {
      hide SQLiteConnectionPool.Valid, Requests.Inv, ReconfigureAll;
      ghost var s, config := pool.Abs(), configuration.Value();
      threw := pool.ReconfigureConnections(configuration, env);
      Requests.ReconfigureKeepsInv(s, config, env);
    }

    /** What every setter promises: the database is still in lock-step with its pool, on both exits. */
    twostate predicate Kept(config: Config, threw: bool)
      reads this, configuration, configuration.customFunctions, Reach()
    {
      && Valid() && pool == old(pool)
      && configuration.Value() == (if threw then old(configuration.Value()) else config)
    }

    method SetLocale(locale: string, env: Env) returns (threw: bool)
      requires Valid()
      modifies configuration, Reach()
      ensures Kept(old(configuration.Value()).(locale := locale), threw)
      ensures threw <==> pool == null || !old(pool.isOpen)
    {
      hide SQLiteConnectionPool.Valid, Requests.Inv, Distinct, HasWal;
      if pool == null {
        return true;
      }
      ghost var was := configuration.Value();
      var oldLocale := configuration.locale;
      configuration.locale := locale;
      threw := Reconfigure(env, was);
      if threw {
        configuration.locale := oldLocale;
      }
    }

    method SetMaxSqlCacheSize(cacheSize: int, env: Env) returns (threw: bool)
      requires Valid()
      modifies configuration, Reach()
      ensures Kept(old(configuration.Value()).(maxSqlCacheSize := cacheSize), threw)
      ensures threw <==> pool == null || !old(pool.isOpen) || cacheSize < 0 || cacheSize > 100
    {
      hide SQLiteConnectionPool.Valid, Requests.Inv, Distinct, HasWal;
      if cacheSize > MAX_SQL_CACHE_SIZE || cacheSize < 0 || pool == null {
        return true;
      }
      ghost var was := configuration.Value();
      var oldSize := configuration.maxSqlCacheSize;
      configuration.maxSqlCacheSize := cacheSize;
      threw := Reconfigure(env, was);
      if threw {
        configuration.maxSqlCacheSize := oldSize;
      }
    }

    /** On failure the setting is negated instead of restored, which is the same, because it differed. */
    method SetForeignKeyConstraintsEnabled(enable: bool, env: Env) returns (threw: bool)
      requires Valid()
      modifies configuration, Reach()
      ensures Kept(old(configuration.Value()).(foreignKeys := enable), threw)
      ensures threw <==> || pool == null
                         || (&& enable != old(configuration.foreignKeys)
                             && (!old(pool.isOpen) || old(pool.acquired) != map[]))
    {
      hide SQLiteConnectionPool.Valid, Requests.Inv, Distinct, HasWal;
      if pool == null {
        return true;
      }
      if configuration.foreignKeys == enable {
        return false;
      }
      ghost var was := configuration.Value();
      configuration.foreignKeys := enable;
      threw := Reconfigure(env, was);
      if threw {
        configuration.foreignKeys := !enable;
      }
    }

    method ReopenReadWrite(env: Env) returns (threw: bool)
      requires Valid()
      modifies configuration, Reach()
      ensures Kept(old(configuration.Value()).(openFlags := ReadWrite(old(configuration.openFlags))), threw)
      ensures threw <==> || pool == null
                         || (&& IsReadOnly(old(configuration.openFlags))
                             && (!old(pool.isOpen) || !env.opens(old(pool.nextConnectionId))))
    {
      hide SQLiteConnectionPool.Valid, Requests.Inv, Distinct, HasWal;
      ReadWriteKeepsWal(configuration.openFlags);
      if pool == null {
        return true;
      }
      if !IsReadOnly(configuration.openFlags) {
        return false;
      }
      ghost var was := configuration.Value();
      var oldFlags := configuration.openFlags;
      configuration.openFlags := ReadWrite(configuration.openFlags);
      threw := Reconfigure(env, was);
      if threw {
        configuration.openFlags := oldFlags;
      }
    }

    /**
      Returns whether write-ahead logging is on afterwards; it is refused for read-only databases, databases in
      memory and databases with attached databases.
     */
    method EnableWriteAheadLogging(inMemory: bool, env: Env) returns (r: Result)
      requires Valid()
      modifies configuration, Reach()
      ensures Kept(old(configuration.Value()).(openFlags := WithWal(old(configuration.openFlags))), r != Returned(true))
      ensures r == Thrown <==>
                || pool == null
                || (&& !HasWal(old(configuration.openFlags)) && !IsReadOnly(old(configuration.openFlags))
                    && !inMemory && !hasAttachedDatabases
                    && (!old(pool.isOpen) || old(pool.acquired) != map[] || !env.opens(old(pool.nextConnectionId))))
      ensures r == Returned(false) <==>
                && pool != null && !HasWal(old(configuration.openFlags))
                && (IsReadOnly(old(configuration.openFlags)) || inMemory || hasAttachedDatabases)
      ensures r == Returned(true) ==> HasWal(configuration.openFlags)
    {
      hide SQLiteConnectionPool.Valid, Requests.Inv, Distinct, HasWal;
      WalBitRoundTrip(configuration.openFlags);
      if pool == null {
        return Thrown;
      }
      if HasWal(configuration.openFlags) {
        return Returned(true);
      }
      if IsReadOnly(configuration.openFlags) || inMemory || hasAttachedDatabases {
        return Returned(false);
      }
      ghost var was := configuration.Value();
      configuration.openFlags := WithWal(configuration.openFlags);
      var threw := Reconfigure(env, was);
      if threw {
        configuration.openFlags := WithoutWal(configuration.openFlags);
        return Thrown;
      }
      return Returned(true);
    }

    method DisableWriteAheadLogging(env: Env) returns (threw: bool)
      requires Valid()
      modifies configuration, Reach()
      ensures Kept(old(configuration.Value()).(openFlags := WithoutWal(old(configuration.openFlags))), threw)
      ensures threw <==>
                || pool == null
                || (&& HasWal(old(configuration.openFlags))
                    && (!old(pool.isOpen) || old(pool.acquired) != map[] || !env.opens(old(pool.nextConnectionId))))
      ensures !threw ==> !HasWal(configuration.openFlags)
    {
      hide SQLiteConnectionPool.Valid, Requests.Inv, Distinct, HasWal;
      WalBitRoundTrip(configuration.openFlags);
      if pool == null {
        return true;
      }
      if !HasWal(configuration.openFlags) {
        return false;
      }
      ghost var was := configuration.Value();
      configuration.openFlags := WithoutWal(configuration.openFlags);
      threw := Reconfigure(env, was);
      if threw {
        configuration.openFlags := WithWal(configuration.openFlags);
      }
    }

    /** Registers a new function wrapper with every connection, or with none. */
    method AddCustomFunction(env: Env) returns (threw: bool)
      requires Valid()
      modifies this`wrappers, configuration.customFunctions, Reach()
      ensures Kept(old(configuration.Value()).(functions := old(configuration.customFunctions.items) + [old(wrappers)]), threw)
      ensures threw <==> pool == null || !old(pool.isOpen)
    {
      hide SQLiteConnectionPool.Valid, Requests.Inv, HasWal, WithoutFirst;
      var wrapper := wrappers;
      wrappers := wrappers + 1;
      if pool == null {
        return true;
      }
      ghost var was := configuration.Value();
      AppendThenRemove(was.functions, wrapper);
      configuration.customFunctions.Add(wrapper);
      threw := Reconfigure(env, was);
      if threw {
        configuration.customFunctions.Remove(wrapper);
      }
    }
  }
}
