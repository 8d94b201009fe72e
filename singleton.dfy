/**
 * The Singleton example of Singleton/Program.cs: one ConfigurationManager,
 * created lazily on first access, holding a dictionary of string settings.
 *
 * The static Lazy<ConfigurationManager> field is represented by a
 * LazyConfiguration object that the program creates once; its Instance
 * method is the `Instance` property.
 */
module Singleton {

  const DatabaseHost: string := "DatabaseHost"
  const DatabaseName: string := "DatabaseName"
  const DatabaseUser: string := "DatabaseUser"

  /** The settings the constructor loads. */
  function InitialSettings(): (settings: map<string, string>)
    ensures settings.Keys == {DatabaseHost, DatabaseName, DatabaseUser, "ApiUrl", "LogLevel"}
    ensures settings[DatabaseHost] == "localhost" && settings[DatabaseName] == "ProductionDB"
    ensures settings[DatabaseUser] == "admin"
    ensures settings["ApiUrl"] == "https://api.example.com/v1" && settings["LogLevel"] == "Info"
  {
    map[
      DatabaseHost := "localhost",
      DatabaseName := "ProductionDB",
      DatabaseUser := "admin",
      "ApiUrl" := "https://api.example.com/v1",
      "LogLevel" := "Info"
    ]
  }

  /** The three keys GetConnectionString reads with the indexer, which throws on a missing key. */
  predicate HasDatabaseKeys(settings: map<string, string>) {
    DatabaseHost in settings && DatabaseName in settings && DatabaseUser in settings
  }

  /** GetSetting: TryGetValue, with the empty string for a missing key. */
  function Lookup(settings: map<string, string>, key: string): string {
    if key in settings then settings[key] else ""
  }

  /** GetConnectionString: the database connection string for "Database", the empty string for any other name. */
  function ConnectionString(settings: map<string, string>, name: string): string
    requires HasDatabaseKeys(settings)
  {
    if name == "Database" then
      "Server=" + settings[DatabaseHost] + ";Database=" + settings[DatabaseName] + ";User Id=" + settings[DatabaseUser]
    else ""
  }

  /** The seeded store has the database keys, and an upsert never removes them. */
  lemma DatabaseKeysStay(settings: map<string, string>, key: string, value: string)
    requires HasDatabaseKeys(settings)
    ensures HasDatabaseKeys(InitialSettings())
    ensures HasDatabaseKeys(settings[key := value])
  {
  }

  /**
   * After UpdateSetting(key, value), GetSetting(key) returns value, every
   * other key reads as before, and no key disappears.
   */
  lemma UpdateThenGet(settings: map<string, string>, key: string, value: string, other: string)
    requires other != key
    ensures Lookup(settings[key := value], key) == value
    ensures Lookup(settings[key := value], other) == Lookup(settings, other)
    ensures settings.Keys <= settings[key := value].Keys
  {
  }

  /** The fields of `s` between the separator character `sep`, in order (String.Split). */
  function Split(s: string, sep: char): (parts: seq<string>)
    ensures |parts| >= 1
    decreases |s|
  {
    if s == [] then [""]
    else if s[0] == sep then [""] + Split(s[1..], sep)
    else
      var rest := Split(s[1..], sep);
      [[s[0]] + rest[0]] + rest[1..]
  }

  lemma {:induction false} SplitNoSeparator(s: string, sep: char)
    requires sep !in s
    ensures Split(s, sep) == [s]
    decreases |s|
  {
    if s != [] {
      SplitNoSeparator(s[1..], sep);
      assert [s[0]] + s[1..] == s;
    }
  }

  lemma {:induction false} SplitAfterField(a: string, sep: char, b: string)
    requires sep !in a
    ensures Split(a + [sep] + b, sep) == [a] + Split(b, sep)
    decreases |a|
  {
    var s := a + [sep] + b;
    if a == [] {
      assert s[0] == sep && s[1..] == b;
    } else {
      assert s[0] == a[0] && s[1..] == a[1..] + [sep] + b;
      SplitAfterField(a[1..], sep, b);
      assert [a[0]] + a[1..] == a;
    }
  }

  /**
   * The database connection string reflects the current values: when they
   * contain no ';', splitting it at ';' gives back the host, the database
   * name and the user, each behind its own keyword. Any other name gives the
   * empty string.
   */
  lemma ConnectionStringFields(settings: map<string, string>, name: string)
    requires HasDatabaseKeys(settings)
    requires ';' !in settings[DatabaseHost] && ';' !in settings[DatabaseName] && ';' !in settings[DatabaseUser]
    ensures name == "Database" ==>
              Split(ConnectionString(settings, name), ';') ==
              ["Server=" + settings[DatabaseHost], "Database=" + settings[DatabaseName], "User Id=" + settings[DatabaseUser]]
    ensures name != "Database" ==> ConnectionString(settings, name) == ""
  {
    if name == "Database" {
      var f1 := "Server=" + settings[DatabaseHost];
      var f2 := "Database=" + settings[DatabaseName];
      var f3 := "User Id=" + settings[DatabaseUser];
      assert ConnectionString(settings, name) == f1 + [';'] + (f2 + [';'] + f3);
      SplitAfterField(f1, ';', f2 + [';'] + f3);
      SplitAfterField(f2, ';', f3);
      SplitNoSeparator(f3, ';');
    }
  }

  /** The one configuration manager. */
  class ConfigurationManager {
    /** The `_settings` dictionary. */
    var settings: map<string, string>

    /** The database keys are always present, so GetConnectionString cannot fail. */
    predicate Valid()
      reads this
    {
      HasDatabaseKeys(settings)
    }

    /** The private constructor: loads the five settings. */
    constructor()
      ensures settings == InitialSettings()
      ensures Valid()
    {
      settings := InitialSettings();
    }

    /** GetConnectionString, from the current settings. */
    method GetConnectionString(name: string) returns (r: string)
      requires Valid()
      ensures r == ConnectionString(settings, name)
    {
      if name == "Database" {
        r := "Server=" + settings[DatabaseHost] + ";Database=" + settings[DatabaseName] + ";User Id=" + settings[DatabaseUser];
      } else {
        r := "";
      }
    }

    /** GetSetting: the stored value, or the empty string. */
    method GetSetting(key: string) returns (r: string)
      ensures r == Lookup(settings, key)
      ensures key !in settings ==> r == ""
    {
      if key in settings {
        r := settings[key];
      } else {
        r := "";
      }
    }

    /** UpdateSetting: inserts or overwrites one key. */
    method UpdateSetting(key: string, value: string)
      requires Valid()
      modifies this`settings
      ensures settings == old(settings)[key := value]
      ensures Valid()
    {
      settings := settings[key := value];
    }
  }

  /** The static Lazy<ConfigurationManager>: empty until the first access. */
  class LazyConfiguration {
    var value: ConfigurationManager?

    predicate Valid()
      reads this, value
    {
      value != null ==> value.Valid()
    }

    constructor()
      ensures value == null
    {
      value := null;
    }

    /**
     * The Instance property: the first access creates the manager with the
     * initial settings; every later access returns that same object.
     */
    method Instance() returns (c: ConfigurationManager)
      requires Valid()
      modifies this`value
      ensures value == c && Valid()
      ensures old(value) != null ==> c == old(value)
      ensures old(value) == null ==> fresh(c) && c.settings == InitialSettings()
    {
      if value == null {
        value := new ConfigurationManager();
      }
      c := value;
    }
  }

  /** Two accesses, as the demonstration performs them, yield the same object. */
  method InstanceIsShared(lazy: LazyConfiguration) returns (c1: ConfigurationManager, c2: ConfigurationManager)
    requires lazy.Valid()
    modifies lazy`value
    ensures c1 == c2 && lazy.value == c1
  {
    c1 := lazy.Instance();
    c2 := lazy.Instance();
  }
}
