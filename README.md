# foil core in Dafny

foil (`foil/foil.py`) is a thin Python 2 wrapper around `ConfigParser`,
`pymongo` and `sshtunnel`. This project models its core and proves
properties of the model:

- `str_to_bool`, the fixed-set string predicate (module `Booleans`). It
  rests on models of the Python 2 built-ins it and `Config` use:
  `str.strip()`, `str()` and `int()` on a string (module `Builtins`).
- `Config`, the in-memory two-level map section -> option -> string
  (module `Configs`). Its `init`, `get`, `load` and `write` run over an
  abstract file system: which paths exist, which are directories, which
  ones the INI parser reads (and what it reads there), plus `expanduser`
  and `dirname` as uninterpreted functions.
- The `Mongo` connection state with the parts of `_DB` it uses (module
  `MongoDb`):
  - `_DB.load`, `sshtunnel_create` and `client`;
  - the constructor's automatic load;
  - `configure`, `connect` and `disconnect`.

  The tunnel library and the driver are not modelled. Their outcomes
  (creation or start failing, a client being returned, the server
  answering) are method parameters. Every call made into them is recorded
  in a ghost trace `Calls`. That is how the order "close the client, then
  stop the tunnel" is stated.

`configure` with a `Config` attached is specified by a pure function,
`ReadConfig`. It walks the outcomes of the nine `get` calls on the held
map, in source order. The first exception stops the walk and escapes. The fields assigned
before it keep their new values, and the others keep their old ones.

Where the code and its documentation differ, the model follows the code:

- `load` returns True for any file the parser can read, even one with no
  sections (`results` is empty only when the file could not be read).
- A `Config` instance is always true, so `configure` ignores its arguments
  whenever a `Config` is attached, loaded or not.
- A missing option read with a cast does not fall back to None. `int(None)`
  raises TypeError and `None.strip()` raises AttributeError. The
  `except KeyError` blocks in `configure` never catch these.

## Model

| member | source | states |
|---|---|---|
| Builtins.TrimLeft | foil/foil.py:60 | the result of `lstrip` is empty or starts with a non-whitespace character |
| Builtins.TrimRight | foil/foil.py:60 | the result of `rstrip` is no longer than the input, and is empty or ends with non-whitespace while keeping the first character |
| Builtins.Strip | foil/foil.py:60 | `strip()` leaves no whitespace at either end |
| Builtins.TrimLeftPadded | foil/foil.py:60 | `lstrip` removes exactly a whitespace prefix in front of a non-blank start |
| Builtins.TrimRightPadded | foil/foil.py:60 | `rstrip` removes exactly a whitespace suffix behind a non-blank end |
| Builtins.StripPadded | foil/foil.py:60 | for any whitespace `pre`/`post` and a core with no whitespace at its ends, `strip(pre + core + post) == core` |
| Builtins.TrimLeftSuffix | foil/foil.py:60 | `lstrip` keeps a suffix of its input and drops only whitespace |
| Builtins.TrimRightPrefix | foil/foil.py:60 | `rstrip` keeps a prefix of its input and drops only whitespace |
| Builtins.StripDecomposes | foil/foil.py:60 | every string is whitespace, then its `strip()`, then whitespace; with `StripPadded` this determines `strip` completely |
| Builtins.StripBlank | foil/foil.py:60 | a string of whitespace strips to the empty string |
| Builtins.ToStr | foil/foil.py:278 | `str()` of a string is itself, of a bool is "True" or "False", of an integer is a minus sign exactly when negative followed by digits whose value is its magnitude |
| Builtins.Decimal | foil/foil.py:278 | `str(n)` of a natural is a non-empty digit string with no leading zero whose value is `n` |
| Builtins.ParseInt | foil/foil.py:174 | `int(s)` either yields a value or raises ValueError, never another exception |
| Builtins.ParseSigned | foil/foil.py:174 | `int()` of a string with no surrounding whitespace yields a value or raises ValueError |
| Builtins.ParseSignedSpacedSign | foil/foil.py:174 | whitespace between the sign and the digits is skipped, as Python 2's `int()` does: `int("- 5") == -5` |
| Builtins.StripIntStr | foil/foil.py:174 | `str(n)` carries no whitespace for `strip` to remove |
| Builtins.ParseIntToStr | foil/foil.py:174 | `int(str(n)) == n` for every integer, negative ones included |
| Booleans.StrToBool | foil/foil.py:42-63 | a blank string reads as false, and a string that reads as true is a single word of one to four characters once stripped |
| Booleans.StrToBoolPadded | foil/foil.py:60-63 | a trimmed word padded with any whitespace reads as true exactly when it is one of the nine spellings |
| Booleans.StrToBoolTrimmed | foil/foil.py:60-63 | a string with no surrounding whitespace reads as true exactly when it is one of the nine spellings |
| Booleans.StrToBoolOfStr | foil/foil.py:60-63 | `str_to_bool(str(b)) == b` for a Python bool |
| Booleans.StrToBoolTrueExamples | foil/foil.py:50 | "Yes", " yes ", "YES" and "1" read as true |
| Booleans.StrToBoolFalseExamples | foil/foil.py:60-63 | "no", "0", "" and "False" read as false |
| Configs.StringifySection | foil/foil.py:276-278 | the copy of one section has exactly that section's options |
| Configs.Stringify | foil/foil.py:272-278 | the copy `init` makes has exactly the source's sections, each with exactly its options |
| Configs.GetValue | foil/foil.py:132-176 | the value has the type asked for (a string or None without a cast, a bool with `'bool'`, an int with `'int'`); with no map held every read raises TypeError; with one held only a cast can raise, and `'bool'` raises exactly when the option is missing |
| Configs.Config.Get | foil/foil.py:132-176 | raises TypeError while no map is held; a present option read without a cast gives the stored string |
| Configs.ParentDir | foil/foil.py:329-334 | the directory `write` checks is never empty: `dirname` of the path, or `.` when that is empty |
| Configs.Config.constructor | foil/foil.py:122-130 | a new `Config` holds no map and remembers the file name it was given |
| Configs.Config.Init | foil/foil.py:242-280 | after `init(None)` the held map is empty; after `init(d)` it is `d` with every value turned into `str()` of it, a copy and not the caller's dict |
| Configs.Config.Load | foil/foil.py:178-240 | with no file name, or when the expanded path does not exist, returns False and changes nothing; otherwise it remembers the expanded path, resets the map, and returns True with the parsed map exactly when the parser reads the file, else False with an empty map |
| Configs.Config.Write | foil/foil.py:282-362 | returns False and writes nothing when there is no file name, the path is a directory, its parent (`.` for an empty dirname) is not a directory, or the file exists without `force`, in that order; otherwise raises TypeError with no map held, else returns True and the file exists afterwards |
| Configs.InitGetRoundTrip | foil/foil.py:162-176 | reading without a cast what `init` stored gives `str()` of the original value |
| Configs.InitGetInt | foil/foil.py:174 | an integer stored by `init` and read with cast `'int'` comes back unchanged |
| Configs.InitGetBool | foil/foil.py:170-171 | a bool stored by `init` and read with cast `'bool'` comes back unchanged |
| Configs.GetMissing | foil/foil.py:162-176 | a missing section or option gives None without a cast, AttributeError with `'bool'` and TypeError with `'int'` |
| Configs.GetPresent | foil/foil.py:162-171 | a present option gives its stored string, or `str_to_bool` of it with `'bool'` |
| Configs.GetPresentInt | foil/foil.py:173-174 | a present option with `'int'` gives `int()` of it, or ValueError |
| Configs.GetUnloaded | foil/foil.py:126 | before any `init`, or any `load` that found its file, every `get` raises TypeError |
| MongoDb.ReadConfig | foil/foil.py:660-704 | `configure` on an attached `Config` ends without an exception exactly when none of the nine reads raises, and then every field comes from the `Config` whatever it held before: the attached `Config` wins wholesale |
| MongoDb.ReadFromRaisesIff | foil/foil.py:660-704 | from any read on, `configure` ends without an exception exactly when none of the remaining reads raises |
| MongoDb.AssignAll | foil/foil.py:660-704 | once all nine fields are assigned, nothing of their earlier values remains |
| MongoDb.ReadFromReaches | foil/foil.py:660-704 | while the reads succeed, `configure` reaches the n-th read with the first n fields assigned from what the reads returned |
| MongoDb.ReadFromStops | foil/foil.py:660-704 | the first read that raises ends `configure` with that exception; the fields read before it are assigned and the rest keep their old values |
| MongoDb.ReadFromCompletes | foil/foil.py:660-704 | when no read raises, every field is assigned from what the reads returned, whatever the fields held before |
| MongoDb.ReadConfigUnloaded | foil/foil.py:660-664 | with an attached `Config` that holds no map, `configure` raises TypeError and changes no field |
| MongoDb.StoredStrings | foil/foil.py:660-697 | address, ssh_host, ssh_username and ssh_key_file come from their options, and are None when the option is missing |
| MongoDb.StringReadNeverRaises | foil/foil.py:162-167 | a read without a cast never raises once a map is held, so the `except KeyError` blocks never fire |
| MongoDb.ReadConfigMissingPort | foil/foil.py:660-669 | a missing port stops `configure` with TypeError after the address has been assigned |
| MongoDb.Mongo.constructor | foil/foil.py:539-553 | a new `Mongo` has every connection field None, no tunnel, no client and no `Config` |
| MongoDb.Mongo.LoadConfig | foil/foil.py:383-402 | `_DB.load` attaches a fresh `Config` for the name whether or not loading succeeds, and returns whether the file parsed |
| MongoDb.Mongo.AutoLoad | foil/foil.py:584-592 | with a file name: load it and run `configure` only on success; without one: try `database.ini`, then `~/.database.ini`, keep the `Config` of the first that loads (or of the last tried) and do not configure |
| MongoDb.Mongo.ReadOption | foil/foil.py:661-704 | one `try` block of `configure`: the field gets what `get` returned, or nothing changes and the exception escapes |
| MongoDb.Mongo.Configure | foil/foil.py:659-716 | with no `Config` attached, each field equals its argument; with one attached, the arguments are ignored and the outcome is `ReadConfig` of the held map |
| MongoDb.Mongo.SshTunnelCreate | foil/foil.py:404-459 | the tunnel held is the one built from the SSH fields with 0.0.0.0:local_port forwarded to 127.0.0.1:remote_port exactly when creation and start succeed, else None |
| MongoDb.Mongo.Connect | foil/foil.py:720-790 | refuses without touching tunnel, client or trace when address, port or timeout is None; a requested tunnel that fails ends it before any client is made; otherwise the client is built from the fields and the result is whether it came back and the server answered |
| MongoDb.Mongo.Disconnect | foil/foil.py:792-808 | both client and tunnel end as None, the client is closed before the tunnel is stopped, and a call with neither held changes nothing |
| MongoDb.Mongo.Client | foil/foil.py:461-470 | the client returned, if any, is one the driver handed out |

## Left out

- INI parsing and serialisation are not modelled. `ConfigParser` reads a file into the map that `readable` gives for its path, and a write only makes the path exist. Errors the parser raises (for instance a malformed file, or a section named DEFAULT on write) are not modelled.
- Path semantics are abstract: `expanduser` and `dirname` are uninterpreted functions, and existence and directory-ness are sets. The template `config_defaults` built by the `Mongo` constructor is data the core never reads, and is not modelled.
- Configs.Config.Write: does not model the file content, the `open()` failing, or the order of sections in the output.
- `sshtunnel` and `pymongo` are outside the model. The outcomes of `SSHTunnelForwarder(...)`, `start()`, `MongoClient(...)` and `server_info()` are parameters. `stop()` and `close()` always succeed. Exceptions other than the ones the code catches are not modelled.
- MongoDb.Mongo.Connect: a client constructor that returns None is kept as the code checks it. `pymongo.MongoClient` never does that in practice, and the exceptions it raises instead are not modelled. The `ServerSelectionTimeoutError` timing is the driver's and is not modelled.
- MongoDb.Mongo.Configure: the arguments are typed (`Option<string>`, `Option<int>`, `Option<bool>`). Python accepts any value there, and `connect` tests `use_ssh_tunnel` for truth. The model takes only `Some(true)` as true.
- `str()` is modelled for strings, integers and bools only. Other kinds of values a caller might place in the dict passed to `init` are not modelled.
- MongoDb.Mongo.constructor: an exception from `configure` during the automatic load escapes `__init__`, so the caller never receives the object; `AutoLoad` instead returns the exception on an object that remains usable.
- MongoDb.Mongo.constructor: the Python constructor never sets `ssh_host`. The model starts it at None like the other fields. `connect` reads it only when `use_ssh_tunnel` is true, and only `configure` or the caller sets that.
- MongoDb.Mongo.constructor: `auto_load_config_file` and `config_filename` are parameters of `AutoLoad`, which runs the automatic load after construction. `Config`'s keyword default file name `.config` is left to the caller.
- `Mongo.__del__` (garbage-collector timing; its effect is `disconnect`), all `print` diagnostics, `dbtype`, unused imports and the `SelfTest` command-line scaffolding are not modelled.
