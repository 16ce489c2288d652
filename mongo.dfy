/** `Mongo`: the connection state of the MongoDB wrapper (with the parts of
    its base class `_DB` it uses). `configure` fills the connection fields
    either from an attached `Config` or from its arguments, `connect` runs
    an ordered gate (required fields, optional SSH tunnel, client, liveness
    probe), and `disconnect` closes the client and then the tunnel.

    The SSH tunnel library, the MongoDB driver and the file system are
    outside the model: what they do is passed in as outcomes, and every
    call made to them is appended to a ghost trace, `Calls`. */
module MongoDb {
  import opened Builtins
  import opened Configs

  /** The connection fields `configure` sets; Python's None is `None`. */
  datatype Settings = Settings(
    address: Option<string>,
    port: Option<int>,
    timeoutMs: Option<int>,
    useSshTunnel: Option<bool>,
    sshHost: Option<string>,
    sshPort: Option<int>,
    sshUsername: Option<string>,
    sshKeyFile: Option<string>,
    remotePort: Option<int>)

  /** The fields as the constructor leaves them. */
  const Unset := Settings(None, None, None, None, None, None, None, None, None)

  /** The keyword defaults of `configure`. */
  const ConfigureDefaults := Settings(Some("localhost"), Some(27017), Some(30000), Some(false), None, None, None, None, None)

  /** The files the constructor tries, in order, when it is given no file name. */
  const DefaultConfigFileLocations: seq<string> := ["database.ini", "~/.database.ini"]

  /** The fields after `configure` read an attached `Config`, and the
      exception that stopped it, if any. */
  datatype Configured = Configured(settings: Settings, raised: Option<PyError>)

  function AsStr(g: Got): Option<string> {
    if g.StrValue? then Some(g.s) else None
  }

  function AsInt(g: Got): Option<int> {
    if g.IntValue? then Some(g.n) else None
  }

  function AsBool(g: Got): Option<bool> {
    if g.BoolValue? then Some(g.b) else None
  }

  /** The nine fields `configure` reads from an attached `Config`. */
  datatype Field = Address | Port | Timeout | UseSshTunnel | SshHost | SshPort | SshUsername | SshKeyFile | RemotePort

  /** How many fields `configure` reads. */
  const FieldCount := 9

  /** The `i`-th field `configure` reads, counting from 0. */
  function FieldAt(i: nat): Field {
    if i == 0 then Address
    else if i == 1 then Port
    else if i == 2 then Timeout
    else if i == 3 then UseSshTunnel
    else if i == 4 then SshHost
    else if i == 5 then SshPort
    else if i == 6 then SshUsername
    else if i == 7 then SshKeyFile
    else RemotePort
  }

  function Section(f: Field): string {
    match f
    case Address | Port => "MongoServer"
    case Timeout => "MongoClient"
    case _ => "SSHTunnel"
  }

  function OptionName(f: Field): string {
    match f
    case Address => "address"
    case Port => "port"
    case Timeout => "serverselectiontimeoutms"
    case UseSshTunnel => "use_ssh_tunnel"
    case SshHost => "ssh_host"
    case SshPort => "ssh_port"
    case SshUsername => "ssh_username"
    case SshKeyFile => "ssh_key_file"
    case RemotePort => "remote_port"
  }

  function CastOf(f: Field): Cast {
    match f
    case Port | Timeout | SshPort | RemotePort => IntCast
    case UseSshTunnel => BoolCast
    case _ => NoCast
  }

  /** The `get` call `configure` makes for field `f`. */
  function Read(store: Option<ConfigMap>, f: Field): Outcome<Got> {
    GetValue(store, Section(f), OptionName(f), CastOf(f))
  }

  /** Assigning what `get` returned to field `f`. */
  function Assign(s: Settings, f: Field, g: Got): Settings {
    match f
    case Address => s.(address := AsStr(g))
    case Port => s.(port := AsInt(g))
    case Timeout => s.(timeoutMs := AsInt(g))
    case UseSshTunnel => s.(useSshTunnel := AsBool(g))
    case SshHost => s.(sshHost := AsStr(g))
    case SshPort => s.(sshPort := AsInt(g))
    case SshUsername => s.(sshUsername := AsStr(g))
    case SshKeyFile => s.(sshKeyFile := AsStr(g))
    case RemotePort => s.(remotePort := AsInt(g))
  }

  /** What the nine `get` calls of `configure` return on the held map
      `store`, in reading order. */
  function Reads(store: Option<ConfigMap>): (r: seq<Outcome<Got>>)
    ensures |r| == FieldCount
  {
    seq(FieldCount, k requires 0 <= k < FieldCount => Read(store, FieldAt(k)))
  }

  /** `configure` from the `i`-th read on, with the fields as `s` has them,
      when the reads return `outs`. */
  function ReadFrom(outs: seq<Outcome<Got>>, s: Settings, i: nat): Configured
    requires |outs| == FieldCount && i <= FieldCount
    decreases FieldCount - i
  {
    if i == FieldCount then Configured(s, None)
    else if outs[i].Raised? then Configured(s, Some(outs[i].error))
    else ReadFrom(outs, Assign(s, FieldAt(i), outs[i].value), i + 1)
  }

  /** `configure` with a `Config` attached whose held map is `store`: each
      field in turn is read and assigned; the first read that raises stops
      it, leaving the fields assigned so far changed and the rest as they
      were in `prior`. */
  function ReadConfig(store: Option<ConfigMap>, prior: Settings): (r: Configured)
    ensures r.raised.None? <==> Succeed(Reads(store), FieldCount)
    ensures r.raised.None? ==> r.settings == StoredSettings(store)
  {
    var outs := Reads(store);
    ReadFromRaisesIff(outs, prior, 0);
    if Succeed(outs, FieldCount) then
      ReadFromCompletes(outs, prior);
      ReadFrom(outs, prior, 0)
    else
      ReadFrom(outs, prior, 0)
  }

  /** What a read that did not raise contributes; None stands in for a read that raised. */
  function ValueOf(o: Outcome<Got>): Got {
    if o.Ok? then o.value else NoneValue
  }

  /** What each read contributes, in reading order. */
  function Values(outs: seq<Outcome<Got>>): (r: seq<Got>)
    ensures |r| == |outs|
    ensures forall k :: 0 <= k < |outs| && outs[k].Ok? ==> r[k] == outs[k].value
  {
    seq(|outs|, k requires 0 <= k < |outs| => ValueOf(outs[k]))
  }

  /** `s` with its first `n` fields, in reading order, assigned from `vals`. */
  function AssignPrefix(s: Settings, vals: seq<Got>, n: nat): Settings
    requires n <= |vals| == FieldCount
  {
    if n == 0 then s
    else Assign(AssignPrefix(s, vals, n - 1), FieldAt(n - 1), vals[n - 1])
  }

  /** Every field assigned from `vals`. */
  function AllAssigned(vals: seq<Got>): Settings
    requires |vals| == FieldCount
  {
    Settings(AsStr(vals[0]), AsInt(vals[1]), AsInt(vals[2]), AsBool(vals[3]), AsStr(vals[4]),
             AsInt(vals[5]), AsStr(vals[6]), AsStr(vals[7]), AsInt(vals[8]))
  }

  /** Every field as `store` gives it, whatever the fields held before. */
  function StoredSettings(store: Option<ConfigMap>): Settings {
    AllAssigned(Values(Reads(store)))
  }

  /** Assigning all nine fields leaves nothing of what was there before. */
  lemma AssignAll(s: Settings, vals: seq<Got>)
    requires |vals| == FieldCount
    ensures AssignPrefix(s, vals, FieldCount) == AllAssigned(vals)
  {
    var s1 := AssignPrefix(s, vals, 1);
    var s2 := AssignPrefix(s, vals, 2);
    var s3 := AssignPrefix(s, vals, 3);
    var s4 := AssignPrefix(s, vals, 4);
    var s5 := AssignPrefix(s, vals, 5);
    var s6 := AssignPrefix(s, vals, 6);
    var s7 := AssignPrefix(s, vals, 7);
    var s8 := AssignPrefix(s, vals, 8);
    assert AssignPrefix(s, vals, 0) == s;
    assert s1 == s.(address := AsStr(vals[0]));
    assert s2 == s1.(port := AsInt(vals[1]));
    assert s3 == s2.(timeoutMs := AsInt(vals[2]));
    assert s4 == s3.(useSshTunnel := AsBool(vals[3]));
    assert s5 == s4.(sshHost := AsStr(vals[4]));
    assert s6 == s5.(sshPort := AsInt(vals[5]));
    assert s7 == s6.(sshUsername := AsStr(vals[6]));
    assert s8 == s7.(sshKeyFile := AsStr(vals[7]));
  }

  /** No read among the first `n` raises. */
  predicate Succeed(outs: seq<Outcome<Got>>, n: nat)
    requires n <= |outs|
  {
    forall k :: 0 <= k < n ==> outs[k].Ok?
  }

  /** While the reads succeed, `configure` is at the `n`-th read with the
      first `n` fields taken from what they returned. */
  lemma {:induction false} ReadFromReaches(outs: seq<Outcome<Got>>, prior: Settings, n: nat)
    requires |outs| == FieldCount && n <= FieldCount && Succeed(outs, n)
    ensures ReadFrom(outs, prior, 0) == ReadFrom(outs, AssignPrefix(prior, Values(outs), n), n)
  {
    if n > 0 {
      ReadFromReaches(outs, prior, n - 1);
    }
  }

  /** From the `i`-th read on, `configure` ends without an exception exactly
      when none of the remaining reads raises. */
  lemma {:induction false} ReadFromRaisesIff(outs: seq<Outcome<Got>>, s: Settings, i: nat)
    requires |outs| == FieldCount && i <= FieldCount
    ensures ReadFrom(outs, s, i).raised.None? <==> forall k :: i <= k < FieldCount ==> outs[k].Ok?
    decreases FieldCount - i
  {
    if i < FieldCount && outs[i].Ok? {
      ReadFromRaisesIff(outs, Assign(s, FieldAt(i), outs[i].value), i + 1);
    }
  }

  /** The first read that raises ends `configure` with its exception; the
      fields read before it are assigned and the others keep their values. */
  lemma ReadFromStops(outs: seq<Outcome<Got>>, prior: Settings, j: nat)
    requires |outs| == FieldCount && j < FieldCount && Succeed(outs, j) && outs[j].Raised?
    ensures ReadFrom(outs, prior, 0) == Configured(AssignPrefix(prior, Values(outs), j), Some(outs[j].error))
  {
    ReadFromReaches(outs, prior, j);
  }

  /** When no read raises, every field comes from what the reads returned
      and the earlier values of the fields play no part. */
  lemma ReadFromCompletes(outs: seq<Outcome<Got>>, prior: Settings)
    requires |outs| == FieldCount && Succeed(outs, FieldCount)
    ensures ReadFrom(outs, prior, 0) == Configured(AllAssigned(Values(outs)), None)
  {
    ReadFromReaches(outs, prior, FieldCount);
    AssignAll(prior, Values(outs));
  }

  /** With a `Config` attached that holds nothing (it was never loaded),
      `configure` raises TypeError at its first read and changes no field. */
  lemma ReadConfigUnloaded(prior: Settings)
    ensures ReadConfig(None, prior) == Configured(prior, Some(TypeError))
  {
    ReadFromStops(Reads(None), prior, 0);
  }

  /** The string fields come from their options as stored, and are None when
      the option or its section is missing: those reads never raise. */
  lemma StoredStrings(m: ConfigMap)
    ensures var s := StoredSettings(Some(m));
      s.address == Lookup(m, "MongoServer", "address") &&
      s.sshHost == Lookup(m, "SSHTunnel", "ssh_host") &&
      s.sshUsername == Lookup(m, "SSHTunnel", "ssh_username") &&
      s.sshKeyFile == Lookup(m, "SSHTunnel", "ssh_key_file")
  {
  }

  /** A read without a cast never raises once a map is held, so the
      `except KeyError` blocks of `configure` never fire. */
  lemma StringReadNeverRaises(m: ConfigMap, f: Field)
    requires CastOf(f) == NoCast
    ensures Read(Some(m), f) == Ok(if Lookup(m, Section(f), OptionName(f)).Some? then StrValue(Lookup(m, Section(f), OptionName(f)).value) else NoneValue)
  {
  }

  /** A missing port stops `configure` with TypeError (not the KeyError its
      handlers catch) after the address has been assigned. */
  lemma ReadConfigMissingPort(m: ConfigMap, prior: Settings)
    requires Lookup(m, "MongoServer", "port").None?
    ensures ReadConfig(Some(m), prior) == Configured(prior.(address := Lookup(m, "MongoServer", "address")), Some(TypeError))
  {
    var outs := Reads(Some(m));
    assert Succeed(outs, 1);
    ReadFromStops(outs, prior, 1);
    assert AssignPrefix(prior, Values(outs), 1) == Assign(AssignPrefix(prior, Values(outs), 0), Address, Values(outs)[0]);
  }

  /** A host and port pair handed to the tunnel library. */
  datatype Endpoint = Endpoint(host: string, port: Option<int>)

  /** What a tunnel object was built from. */
  datatype Tunnel = Tunnel(
    sshHost: Option<string>,
    sshPort: Option<int>,
    sshUsername: Option<string>,
    sshKeyFile: Option<string>,
    remoteBind: Endpoint,
    localBind: Endpoint)

  /** What a driver client was built from. */
  datatype MongoClient = MongoClient(address: string, port: int, timeoutMs: int)

  /** How tunnel creation goes: the constructor raises, `start()` raises, or it runs. */
  datatype TunnelOutcome = CreateFails | StartFails | Started

  /** A call into the tunnel library or the driver. */
  datatype ExternalCall =
    | NewTunnel(tunnel: Tunnel)
    | StartTunnel(tunnel: Tunnel)
    | StopTunnel(tunnel: Tunnel)
    | OpenClient(client: MongoClient)
    | ServerInfo(client: MongoClient)
    | CloseClient(client: MongoClient)

  /** The tunnel `sshtunnel_create` asks for: the SSH server, and a forward
      from local 0.0.0.0:`localPort` to 127.0.0.1:`remotePort` on the far side. */
  function TunnelFor(sshHost: Option<string>, sshPort: Option<int>, sshUsername: Option<string>,
                     sshKeyFile: Option<string>, remotePort: Option<int>, localPort: Option<int>): Tunnel {
    Tunnel(sshHost, sshPort, sshUsername, sshKeyFile, Endpoint("127.0.0.1", remotePort), Endpoint("0.0.0.0", localPort))
  }

  /** The library calls `sshtunnel_create` makes for a given outcome. */
  function TunnelCalls(t: Tunnel, outcome: TunnelOutcome): seq<ExternalCall> {
    if outcome.CreateFails? then [NewTunnel(t)] else [NewTunnel(t), StartTunnel(t)]
  }

  /** The library calls `disconnect` makes: close the client, then stop the tunnel. */
  function TeardownCalls(client: Option<MongoClient>, tunnel: Option<Tunnel>): seq<ExternalCall> {
    (if client.Some? then [CloseClient(client.value)] else []) +
    (if tunnel.Some? then [StopTunnel(tunnel.value)] else [])
  }

  /** What `_DB.load(name)` leaves in the `Config` it attaches: a fresh
      `Config(filename=name)` after `load()`. */
  ghost predicate LoadedFrom(c: Config, fs: FileSystem, name: Option<string>)
    reads c
  {
    if name.Some? && Found(fs, name.value) then
      var path := fs.expandUser(name.value);
      c.filename == Some(path) && c.config == Some(if path in fs.readable then fs.readable[path] else map[])
    else
      c.filename == name && c.config == None
  }

  class Mongo {
    var address: Option<string>
    var port: Option<int>
    var timeoutMs: Option<int>
    var useSshTunnel: Option<bool>
    var sshHost: Option<string>
    var sshPort: Option<int>
    var sshUsername: Option<string>
    var sshKeyFile: Option<string>
    var remotePort: Option<int>
    var tunnel: Option<Tunnel>
    var dbclient: Option<MongoClient>
    var config: Config?
    /** Every call made to the tunnel library and the driver, in order. */
    ghost var Calls: seq<ExternalCall>

    function Current(): Settings
      reads this
    {
      Settings(address, port, timeoutMs, useSshTunnel, sshHost, sshPort, sshUsername, sshKeyFile, remotePort)
    }

    /** The client and tunnel held are ones the libraries handed out. */
    ghost predicate Valid()
      reads this
    {
      (dbclient.Some? ==> OpenClient(dbclient.value) in Calls) &&
      (tunnel.Some? ==> StartTunnel(tunnel.value) in Calls)
    }

    /** The field set-up of `__init__`; the automatic load is `AutoLoad`. */
    constructor ()
      ensures Valid() && Current() == Unset
      ensures tunnel == None && dbclient == None && config == null && Calls == []
    {
      address, port, timeoutMs, useSshTunnel := None, None, None, None;
      sshHost, sshPort, sshUsername, sshKeyFile, remotePort := None, None, None, None, None;
      tunnel, dbclient, config := None, None, null;
      Calls := [];
    }

    /** `_DB.load`: attach a new `Config` for `filename` and load it. The
        `Config` stays attached whether or not the load succeeds. */
    method LoadConfig(fs: FileSystem, filename: Option<string>) returns (ok: bool)
      modifies this`config
      ensures config != null && fresh(config)
      ensures LoadedFrom(config, fs, filename)
      ensures ok == (filename.Some? && Parses(fs, filename.value))
    {
      config := new Config(filename);
      ok := config.Load(fs, None);
    }

    /** The automatic load at the end of `__init__`. With a file name, load
        it and run `configure` only if that succeeded; without one, try the
        default locations in order until one loads, and do not configure. */
    method AutoLoad(autoLoad: bool, configFilename: Option<string>, fs: FileSystem) returns (raised: Option<PyError>)
      modifies this
      ensures tunnel == old(tunnel) && dbclient == old(dbclient) && Calls == old(Calls)
      ensures !autoLoad ==> raised == None && config == old(config) && Current() == old(Current())
      ensures autoLoad && configFilename.Some? ==>
        config != null && fresh(config) && LoadedFrom(config, fs, configFilename) &&
        if Parses(fs, configFilename.value) then Configured(Current(), raised) == ReadConfig(config.config, old(Current()))
        else raised == None && Current() == old(Current())
      ensures autoLoad && configFilename.None? ==>
        raised == None && Current() == old(Current()) && config != null && fresh(config) &&
        LoadedFrom(config, fs, Some(if Parses(fs, DefaultConfigFileLocations[0]) then DefaultConfigFileLocations[0]
                                    else DefaultConfigFileLocations[1]))
    {
      raised := None;
      if autoLoad {
        if configFilename.Some? {
          var ok := LoadConfig(fs, configFilename);
          if ok {
            raised := Configure(ConfigureDefaults);
          }
        } else {
          var locations := DefaultConfigFileLocations;
          var i := 0;
          while i < |locations|
            invariant 0 <= i <= |locations|
            invariant forall j :: 0 <= j < i ==> !Parses(fs, locations[j])
            invariant i > 0 ==> config != null && fresh(config) && LoadedFrom(config, fs, Some(locations[i - 1]))
            invariant Current() == old(Current())
            invariant tunnel == old(tunnel) && dbclient == old(dbclient) && Calls == old(Calls)
          {
            var ok := LoadConfig(fs, Some(locations[i]));
            i := i + 1;
            if ok {
              break;
            }
          }
        }
      }
    }

    /** One `try` block of `configure`: read field `f` from the attached
        `Config` and assign it; an exception leaves every field as it was. */
    method ReadOption(f: Field) returns (raised: Option<PyError>)
      requires config != null
      modifies this`address, this`port, this`timeoutMs, this`useSshTunnel, this`sshHost,
               this`sshPort, this`sshUsername, this`sshKeyFile, this`remotePort
      ensures var got := Read(config.config, f);
        if got.Raised? then raised == Some(got.error) && Current() == old(Current())
        else raised == None && Current() == Assign(old(Current()), f, got.value)
    {
      var got := config.Get(Section(f), OptionName(f), CastOf(f));
      match got {
        case Raised(e) => return Some(e);
        case Ok(v) =>
          match f {
            case Address => address := AsStr(v);
            case Port => port := AsInt(v);
            case Timeout => timeoutMs := AsInt(v);
            case UseSshTunnel => useSshTunnel := AsBool(v);
            case SshHost => sshHost := AsStr(v);
            case SshPort => sshPort := AsInt(v);
            case SshUsername => sshUsername := AsStr(v);
            case SshKeyFile => sshKeyFile := AsStr(v);
            case RemotePort => remotePort := AsInt(v);
          }
          return None;
      }
    }

    /** `configure`: with a `Config` attached, read every field from it in
        turn, ignoring the arguments, and stop at the first exception;
        otherwise take every field from the arguments. */
    method Configure(args: Settings) returns (raised: Option<PyError>)
      modifies this`address, this`port, this`timeoutMs, this`useSshTunnel, this`sshHost,
               this`sshPort, this`sshUsername, this`sshKeyFile, this`remotePort
      ensures config == null ==> raised == None && Current() == args
      ensures config != null ==> Configured(Current(), raised) == ReadConfig(config.config, old(Current()))
    {
      if config == null {
        address, port, timeoutMs, useSshTunnel := args.address, args.port, args.timeoutMs, args.useSshTunnel;
        sshHost, sshPort, sshUsername := args.sshHost, args.sshPort, args.sshUsername;
        sshKeyFile, remotePort := args.sshKeyFile, args.remotePort;
        return None;
      }
      // what is left to do before the i-th read is `ReadFrom(outs, Current(), i)`
      ghost var outs := Reads(config.config);
      ghost var expected := ReadConfig(config.config, Current());
      raised := ReadOption(Address);
      if raised.Some? { return; }
      assert ReadFrom(outs, Current(), 1) == expected;
      raised := ReadOption(Port);
      if raised.Some? { return; }
      assert ReadFrom(outs, Current(), 2) == expected;
      raised := ReadOption(Timeout);
      if raised.Some? { return; }
      assert ReadFrom(outs, Current(), 3) == expected;
      raised := ReadOption(UseSshTunnel);
      if raised.Some? { return; }
      assert ReadFrom(outs, Current(), 4) == expected;
      raised := ReadOption(SshHost);
      if raised.Some? { return; }
      assert ReadFrom(outs, Current(), 5) == expected;
      raised := ReadOption(SshPort);
      if raised.Some? { return; }
      assert ReadFrom(outs, Current(), 6) == expected;
      raised := ReadOption(SshUsername);
      if raised.Some? { return; }
      assert ReadFrom(outs, Current(), 7) == expected;
      raised := ReadOption(SshKeyFile);
      if raised.Some? { return; }
      assert ReadFrom(outs, Current(), 8) == expected;
      raised := ReadOption(RemotePort);
      if raised.Some? { return; }
      assert ReadFrom(outs, Current(), 9) == expected;
    }

    /** `_DB.sshtunnel_create`: build the tunnel object and start it; on
        either failure the held tunnel becomes None. */
    method SshTunnelCreate(sshHost: Option<string>, sshPort: Option<int>, sshUsername: Option<string>,
                           sshKeyFile: Option<string>, remotePort: Option<int>, localPort: Option<int>,
                           outcome: TunnelOutcome) returns (ok: bool)
      modifies this`tunnel, this`Calls
      ensures var t := TunnelFor(sshHost, sshPort, sshUsername, sshKeyFile, remotePort, localPort);
        ok == outcome.Started? &&
        tunnel == (if ok then Some(t) else None) &&
        Calls == old(Calls) + TunnelCalls(t, outcome)
    {
      var t := TunnelFor(sshHost, sshPort, sshUsername, sshKeyFile, remotePort, localPort);
      Calls := Calls + [NewTunnel(t)];
      if outcome.CreateFails? {
        tunnel := None;
        return false;
      }
      tunnel := Some(t);
      Calls := Calls + [StartTunnel(t)];
      if outcome.StartFails? {
        tunnel := None;
        return false;
      }
      return true;
    }

    /** `connect`: refuse, touching nothing, while address, port or timeout
        is None; open the tunnel if asked and stop if that fails; then open
        the client and probe the server once. `tunnelOutcome`, `clientOpens`
        and `serverResponds` stand for what the libraries do. */
    method Connect(tunnelOutcome: TunnelOutcome, clientOpens: bool, serverResponds: bool) returns (ok: bool)
      requires Valid()
      modifies this`tunnel, this`dbclient, this`Calls
      ensures Valid()
      ensures old(address).None? || old(port).None? || old(timeoutMs).None? ==>
        !ok && tunnel == old(tunnel) && dbclient == old(dbclient) && Calls == old(Calls)
      ensures address.Some? && port.Some? && timeoutMs.Some? ==>
        var t := TunnelFor(sshHost, sshPort, sshUsername, sshKeyFile, remotePort, port);
        var tunnelled := useSshTunnel == Some(true);
        var c := MongoClient(address.value, port.value, timeoutMs.value);
        if tunnelled && !tunnelOutcome.Started? then
          !ok && tunnel == None && dbclient == old(dbclient) &&
          Calls == old(Calls) + TunnelCalls(t, tunnelOutcome)
        else
          ok == (clientOpens && serverResponds) &&
          tunnel == (if tunnelled then Some(t) else old(tunnel)) &&
          dbclient == (if clientOpens then Some(c) else None) &&
          Calls == old(Calls) + (if tunnelled then TunnelCalls(t, tunnelOutcome) else []) +
                   [OpenClient(c)] + (if clientOpens then [ServerInfo(c)] else [])
    {
      if address.None? || port.None? || timeoutMs.None? {
        return false;
      }
      ghost var before := Calls;
      if useSshTunnel == Some(true) {
        var _ := SshTunnelCreate(sshHost, sshPort, sshUsername, sshKeyFile, remotePort, port, tunnelOutcome);
        if tunnel.None? {
          return false;
        }
      }
      ghost var afterTunnel := Calls;
      var c := MongoClient(address.value, port.value, timeoutMs.value);
      Calls := Calls + [OpenClient(c)];
      dbclient := if clientOpens then Some(c) else None;
      if dbclient.None? {
        return false;
      }
      Calls := Calls + [ServerInfo(c)];
      assert afterTunnel <= Calls;
      if !serverResponds {
        return false;
      }
      return true;
    }

    /** `disconnect`: close and drop the client if there is one, then stop
        and drop the tunnel if there is one. */
    method Disconnect()
      modifies this`tunnel, this`dbclient, this`Calls
      ensures tunnel == None && dbclient == None
      ensures Calls == old(Calls) + TeardownCalls(old(dbclient), old(tunnel))
      ensures Valid()
    {
      if dbclient.Some? {
        Calls := Calls + [CloseClient(dbclient.value)];
        dbclient := None;
      }
      if tunnel.Some? {
        Calls := Calls + [StopTunnel(tunnel.value)];
        tunnel := None;
      }
    }

    /** `_DB.client`: the driver client held, if any; it is one the driver handed out. */
    function Client(): (c: Option<MongoClient>)
      reads this
      requires Valid()
      ensures c.Some? ==> OpenClient(c.value) in Calls
    {
      dbclient
    }
  }
}
