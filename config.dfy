/** `Config`: an in-memory two-level map (section -> option -> string)
    that is filled from a caller's dict or from an INI file, read back with
    an optional cast, and written out after a sequence of guards.

    The file system is an abstract value: which paths exist, which are
    directories, which can be read by the INI parser (with the parsed
    result), and the two path functions the code uses, tilde expansion and
    `dirname`. */
module Configs {
  import opened Builtins
  import opened Booleans

  /** What `Config` holds: every value is a string. */
  type ConfigMap = map<string, map<string, string>>

  /** What a caller hands to `init`: values of any printable kind. */
  type ConfigDict = map<string, map<string, PyValue>>

  datatype FileSystem = FileSystem(
    existing: set<string>,              // os.path.exists
    dirs: set<string>,                  // os.path.isdir
    readable: map<string, ConfigMap>,   // paths the INI parser reads, with what it parses
    expandUser: string -> string,       // os.path.expanduser
    dirName: string -> string)          // os.path.dirname

  /** The `casttype` argument of `get`: none, 'bool' or 'int'. */
  datatype Cast = NoCast | BoolCast | IntCast

  /** A value `get` can return: Python's None, a string, a bool or an int. */
  datatype Got = NoneValue | StrValue(s: string) | BoolValue(b: bool) | IntValue(n: int)

  /** `str()` applied to every value of one section. */
  function StringifySection(options: map<string, PyValue>): (r: map<string, string>)
    ensures r.Keys == options.Keys
  {
    map o | o in options :: ToStr(options[o])
  }

  /** The copy `init` makes of a caller's dict: same sections and options, `str()` of each value. */
  function Stringify(d: ConfigDict): (r: ConfigMap)
    ensures r.Keys == d.Keys
    ensures forall s :: s in r ==> r[s].Keys == d[s].Keys
  {
    map s | s in d :: StringifySection(d[s])
  }

  /** The stored string for `option` of `section`, if both exist. */
  function Lookup(m: ConfigMap, section: string, option: string): Option<string> {
    if section in m && option in m[section] then Some(m[section][option]) else None
  }

  /** The directory `write` requires to exist: `dirname(path)`, or "." when that is empty. */
  function ParentDir(fs: FileSystem, path: string): (d: string)
    ensures d != ""
    ensures fs.dirName(path) != "" ==> d == fs.dirName(path)
  {
    var d := fs.dirName(path);
    if d == "" then "." else d
  }

  /** `load` gets past its existence check for `name`. */
  predicate Found(fs: FileSystem, name: string) {
    fs.expandUser(name) in fs.existing
  }

  /** `load` of `name` returns True: the file exists and the INI parser reads it. */
  predicate Parses(fs: FileSystem, name: string) {
    Found(fs, name) && fs.expandUser(name) in fs.readable
  }

  /** `get` on the held map `store`: look the option up; a missing section or
      option yields None (the KeyError is caught), and the cast then applies
      to that None. The result has the type asked for: a string or None
      without a cast, a bool with 'bool', an int with 'int'. With no map held
      every read raises TypeError; with one held only a cast can raise. */
  function GetValue(store: Option<ConfigMap>, section: string, option: string, cast: Cast): (r: Outcome<Got>)
    ensures store.None? ==> r == Raised(TypeError)
    ensures store.Some? && cast == NoCast ==> r.Ok?
    ensures r.Ok? && cast == NoCast ==> r.value.StrValue? || r.value.NoneValue?
    ensures r.Ok? && cast == BoolCast ==> r.value.BoolValue?
    ensures r.Ok? && cast == IntCast ==> r.value.IntValue?
    ensures store.Some? && cast == BoolCast ==> (r.Ok? <==> Lookup(store.value, section, option).Some?)
  {
    match store
    case None => Raised(TypeError)   // subscripting None is not a KeyError
    case Some(m) =>
      var value := Lookup(m, section, option);
      match cast
      case NoCast => Ok(if value.Some? then StrValue(value.value) else NoneValue)
      case BoolCast =>
        if value.Some? then Ok(BoolValue(StrToBool(value.value)))
        else Raised(AttributeError)  // None.strip()
      case IntCast =>
        if value.None? then Raised(TypeError)  // int(None)
        else
          var parsed := ParseInt(value.value);
          if parsed.Ok? then Ok(IntValue(parsed.value)) else Raised(parsed.error)
  }

  class Config {
    /** None until `init` or a `load` that found its file. */
    var config: Option<ConfigMap>
    var filename: Option<string>

    constructor (filename: Option<string>)
      ensures config == None && this.filename == filename
    {
      config := None;
      this.filename := filename;
    }

    /** `get` on the map this object holds: it raises TypeError while none
        is held, and a read of a present option without a cast gives the
        stored string. */
    function Get(section: string, option: string, cast: Cast): (r: Outcome<Got>)
      reads this
      ensures config.None? ==> r == Raised(TypeError)
      ensures config.Some? && section in config.value && option in config.value[section] && cast == NoCast ==>
        r == Ok(StrValue(config.value[section][option]))
    {
      GetValue(config, section, option, cast)
    }

    /** `init`: replace the held map by an empty one, or by a copy of `source`
        with every value turned into a string. */
    method Init(source: Option<ConfigDict>)
      modifies this`config
      ensures config == Some(if source.Some? then Stringify(source.value) else map[])
    {
      config := Some(map[]);
      if source.Some? {
        var d := source.value;
        var todo := d.Keys;
        while todo != {}
          invariant todo <= d.Keys
          invariant config.Some? && config.value.Keys == d.Keys - todo
          invariant forall s :: s in config.value ==> config.value[s] == StringifySection(d[s])
          decreases todo
        {
          var s :| s in todo;
          var section: map<string, string> := map[];
          var options := d[s].Keys;
          while options != {}
            invariant options <= d[s].Keys
            invariant section.Keys == d[s].Keys - options
            invariant forall o :: o in section ==> section[o] == ToStr(d[s][o])
            decreases options
          {
            var o :| o in options;
            section := section[o := ToStr(d[s][o])];
            options := options - {o};
          }
          assert section == StringifySection(d[s]);
          config := Some(config.value[s := section]);
          todo := todo - {s};
        }
        assert config.value == Stringify(d);
      }
    }

    /** `load`: resolve the file name, give up without touching anything when
        there is none or the expanded path does not exist; otherwise reset the
        map, remember the expanded path and copy in what the parser read.
        A path the parser cannot read leaves the map empty and returns false. */
    method Load(fs: FileSystem, filename: Option<string>) returns (ok: bool)
      modifies this
      ensures var name := if filename.Some? then filename else old(this.filename);
        if name.None? || !Found(fs, name.value) then
          !ok && config == old(config) && this.filename == old(this.filename)
        else
          var path := fs.expandUser(name.value);
          this.filename == Some(path) && ok == Parses(fs, name.value) &&
          config == Some(if ok then fs.readable[path] else map[])
    {
      var name := if filename.Some? then filename else this.filename;
      if name.None? {
        return false;
      }
      var path := fs.expandUser(name.value);
      if path !in fs.existing {
        return false;
      }
      config := Some(map[]);
      this.filename := Some(path);
      if path !in fs.readable {
        return false;
      }
      var parsed := fs.readable[path];
      var todo := parsed.Keys;
      while todo != {}
        invariant todo <= parsed.Keys
        invariant config.Some? && config.value.Keys == parsed.Keys - todo
        invariant forall s :: s in config.value ==> config.value[s] == parsed[s]
        invariant this.filename == Some(path)
        decreases todo
      {
        var s :| s in todo;
        var section: map<string, string> := map[];
        var options := parsed[s].Keys;
        while options != {}
          invariant options <= parsed[s].Keys
          invariant section.Keys == parsed[s].Keys - options
          invariant forall o :: o in section ==> section[o] == parsed[s][o]
          decreases options
        {
          var o :| o in options;
          section := section[o := parsed[s][o]];
          options := options - {o};
        }
        assert section == parsed[s];
        config := Some(config.value[s := section]);
        todo := todo - {s};
      }
      assert config.value == parsed;
      return true;
    }

    /** `write`: refuse (false, nothing written) when there is no file name,
        the path is a directory, its parent directory is missing, or the file
        exists and `force` is off; otherwise serialise the held map, which
        raises TypeError before opening the file when nothing is held, and
        leaves the path existing. */
    method Write(fs: FileSystem, filename: Option<string>, force: bool) returns (r: Outcome<bool>, fs': FileSystem)
      ensures var name := if filename.Some? then filename else this.filename;
        var path := if name.Some? then fs.expandUser(name.value) else "";
        if name.None? || path in fs.dirs || ParentDir(fs, path) !in fs.dirs || (path in fs.existing && !force) then
          r == Ok(false) && fs' == fs
        else if config.None? then
          r == Raised(TypeError) && fs' == fs
        else
          r == Ok(true) && fs' == fs.(existing := fs.existing + {path})
    {
      var name := if filename.Some? then filename else this.filename;
      if name.None? {
        return Ok(false), fs;
      }
      var path := fs.expandUser(name.value);
      if path in fs.dirs {
        return Ok(false), fs;
      }
      var dirpath := fs.dirName(path);
      if dirpath == "" {
        dirpath := ".";
      }
      if dirpath !in fs.dirs {
        return Ok(false), fs;
      }
      if path in fs.existing && !force {
        return Ok(false), fs;
      }
      if config.None? {
        return Raised(TypeError), fs;  // iterating over None
      }
      return Ok(true), fs.(existing := fs.existing + {path});
    }
  }

  /** Reading back what `init` stored, without a cast, gives the string form of the value. */
  lemma InitGetRoundTrip(d: ConfigDict, section: string, option: string)
    requires section in d && option in d[section]
    ensures GetValue(Some(Stringify(d)), section, option, NoCast) == Ok(StrValue(ToStr(d[section][option])))
  {
    assert Lookup(Stringify(d), section, option) == Some(ToStr(d[section][option]));
  }

  /** An integer stored by `init` and read with the 'int' cast comes back unchanged. */
  lemma {:induction false} InitGetInt(d: ConfigDict, section: string, option: string, n: int)
    requires section in d && option in d[section] && d[section][option] == PyInt(n)
    ensures GetValue(Some(Stringify(d)), section, option, IntCast) == Ok(IntValue(n))
  {
    assert Lookup(Stringify(d), section, option) == Some(ToStr(PyInt(n)));
    ParseIntToStr(n);
  }

  /** A bool stored by `init` and read with the 'bool' cast comes back unchanged. */
  lemma {:induction false} InitGetBool(d: ConfigDict, section: string, option: string, b: bool)
    requires section in d && option in d[section] && d[section][option] == PyBool(b)
    ensures GetValue(Some(Stringify(d)), section, option, BoolCast) == Ok(BoolValue(b))
  {
    assert Lookup(Stringify(d), section, option) == Some(ToStr(PyBool(b)));
    StrToBoolOfStr(b);
  }

  /** A missing section or option reads as None without a cast, and makes both casts raise. */
  lemma GetMissing(m: ConfigMap, section: string, option: string)
    requires section !in m || option !in m[section]
    ensures GetValue(Some(m), section, option, NoCast) == Ok(NoneValue)
    ensures GetValue(Some(m), section, option, BoolCast) == Raised(AttributeError)
    ensures GetValue(Some(m), section, option, IntCast) == Raised(TypeError)
  {
  }

  /** A present option reads as its stored string, and as `str_to_bool` of it with the 'bool' cast. */
  lemma GetPresent(m: ConfigMap, section: string, option: string)
    requires section in m && option in m[section]
    ensures GetValue(Some(m), section, option, NoCast) == Ok(StrValue(m[section][option]))
    ensures GetValue(Some(m), section, option, BoolCast) == Ok(BoolValue(StrToBool(m[section][option])))
  {
    assert Lookup(m, section, option) == Some(m[section][option]);
  }

  /** With the 'int' cast a present option reads as `int()` of it: its value, or ValueError. */
  lemma GetPresentInt(m: ConfigMap, section: string, option: string)
    requires section in m && option in m[section]
    ensures var v := ParseInt(m[section][option]);
      GetValue(Some(m), section, option, IntCast) == if v.Ok? then Ok(IntValue(v.value)) else Raised(ValueError)
  {
    assert Lookup(m, section, option) == Some(m[section][option]);
  }

  /** Before any `init` or `load` that found its file, every read raises. */
  lemma GetUnloaded(section: string, option: string, cast: Cast)
    ensures GetValue(None, section, option, cast) == Raised(TypeError)
  {
  }
}
