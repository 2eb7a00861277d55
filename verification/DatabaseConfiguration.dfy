/** `SQLiteDatabaseConfiguration` as the object it is: mutable settings and a list of functions of its own. */
module DatabaseConfiguration {
  import opened Configuration

  /** The growable list a configuration keeps its custom functions in. */
  class FunctionList {
    var items: seq<Function>

    constructor ()
      ensures items == []
    {
      items := [];
    }

    method Add(f: Function)
      modifies this
      ensures items == old(items) + [f]
    {
      items := items + [f];
    }

    /** Removes the first occurrence, as the Java list does. */
    method Remove(f: Function)
      modifies this
      ensures items == WithoutFirst(old(items), f)
    {
      items := WithoutFirst(items, f);
    }
  }

  function WithoutFirst(s: seq<Function>, f: Function): seq<Function> {
    if s == [] then []
    else if s[0] == f then s[1..]
    else [s[0]] + WithoutFirst(s[1..], f)
  }

  /** Removing a function that was just appended to a list without it restores the list. */
  lemma {:induction false} AppendThenRemove(s: seq<Function>, f: Function)
    requires f !in s
    ensures WithoutFirst(s + [f], f) == s
  {
    if s != [] {
      AppendThenRemove(s[1..], f);
      assert (s + [f])[1..] == s[1..] + [f];
    }
  }

  class SQLiteDatabaseConfiguration {
    const path: string
    var openFlags: int
    var maxSqlCacheSize: int
    var locale: string
    var foreignKeys: bool
    const customFunctions: FunctionList

    function Value(): Config
      reads this, customFunctions
    {
      Config(path, openFlags, maxSqlCacheSize, locale, foreignKeys, customFunctions.items)
    }

    /** The configuration of a database that is about to be opened, with the default settings. */
    constructor (path: string, openFlags: int, defaultLocale: string)
      ensures Value() == Config(path, openFlags, 25, defaultLocale, false, [])
      ensures fresh(customFunctions)
    {
      this.path := path;
      this.openFlags, maxSqlCacheSize, locale, foreignKeys := openFlags, 25, defaultLocale, false;
      customFunctions := new FunctionList();
    }

    /** A copy shares neither itself nor its function list with the original. */
    constructor Copy(other: SQLiteDatabaseConfiguration)
      ensures Value() == other.Value()
      ensures fresh(customFunctions)
      ensures other.Value() == old(other.Value())
    {
      path := other.path;
      customFunctions := new FunctionList();
      openFlags, maxSqlCacheSize, locale, foreignKeys :=
        other.openFlags, other.maxSqlCacheSize, other.locale, other.foreignKeys;
      new;
      customFunctions.items := other.customFunctions.items;
    }

    /**
      Takes over the settings of `other`. The own function list is cleared before it is refilled, so this is
      a faithful copy exactly when the two configurations do not share a list that has functions in it.
     */
    method UpdateParametersFrom(other: SQLiteDatabaseConfiguration) returns (threw: bool)
      modifies this, customFunctions
      ensures threw <==> path != other.path
      ensures threw ==> Value() == old(Value())
      ensures !threw ==>
                (Value() == old(other.Value()) <==>
                 (other.customFunctions != customFunctions || old(other.customFunctions.items) == []))
      ensures !threw ==> (other.customFunctions == customFunctions ==> customFunctions.items == [])
    {
      threw := path != other.path;
      if !threw {
        openFlags := other.openFlags;
        maxSqlCacheSize := other.maxSqlCacheSize;
        locale := other.locale;
        foreignKeys := other.foreignKeys;
        customFunctions.items := [];
        customFunctions.items := customFunctions.items + other.customFunctions.items;
      }
    }
  }
}
