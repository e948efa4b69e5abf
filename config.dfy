/**
 * Configuration loading: the environment is read first, with per-key
 * fallbacks; when any required key is still empty the loader falls back to a
 * configuration file, which must then supply every required entry itself.
 *
 * The process environment and the decoded file are inputs; a fatal log line
 * becomes an `Err` result.
 */
module Config {
  import opened Wrappers

  datatype Config = Config(
    host: string,
    port: string,
    basepath: string,
    username: string,
    password: string,
    onlinePath: string,
    appPort: string,
    basicAuthUsername: string,
    basicAuthPassword: string)

  const DefaultOnlinePath: string := "panel/api/inbounds/onlines"

  /** The eight required entries; `Name` gives the name the loaders report. */
  datatype Key =
    Host | Port | Basepath | Username | Password | AppPort | BasicAuthUsername | BasicAuthPassword

  /** The environment variable name of a key, which is also how it is reported as missing. */
  function Name(k: Key): string
  {
    match k
    case Host => "HOST"
    case Port => "PORT"
    case Basepath => "BASEPATH"
    case Username => "USERNAME"
    case Password => "PASSWORD"
    case AppPort => "APP_PORT"
    case BasicAuthUsername => "BASIC_AUTH_USERNAME"
    case BasicAuthPassword => "BASIC_AUTH_PASSWORD"
  }

  /** The required keys, in the order in which both loaders test them. */
  const RequiredKeys: seq<Key> :=
    [Host, Port, Basepath, Username, Password, AppPort, BasicAuthUsername, BasicAuthPassword]

  /** The keys that have no non-empty fallback on the environment path. */
  const PanelKeys: seq<Key> := [Host, Port, Basepath, Username, Password]

  /** The process environment; an unset variable reads as "". */
  type Env = map<string, string>

  /** What `os.Getenv` returns for `key`. */
  function Getenv(env: Env, key: string): string
  {
    if key in env then env[key] else ""
  }

  /** The field of `c` that the key `k` names. */
  function Value(c: Config, k: Key): string
  {
    match k
    case Host => c.host
    case Port => c.port
    case Basepath => c.basepath
    case Username => c.username
    case Password => c.password
    case AppPort => c.appPort
    case BasicAuthUsername => c.basicAuthUsername
    case BasicAuthPassword => c.basicAuthPassword
  }

  /** Every required entry is non-empty. */
  predicate Complete(c: Config)
  {
    forall k: Key :: Value(c, k) != ""
  }

  /** The invariant a running agent relies on: all nine fields are non-empty. */
  predicate Usable(c: Config)
  {
    Complete(c) && c.onlinePath != ""
  }

  /**
   * An environment value wins when it is non-empty; otherwise the fallback is
   * used, so the result can only be empty when both are.
   */
  function GetEnv(env: Env, key: string, fallback: string): (r: string)
    ensures Getenv(env, key) != "" ==> r == Getenv(env, key)
    ensures Getenv(env, key) == "" ==> r == fallback
    ensures r == "" <==> Getenv(env, key) == "" && fallback == ""
  {
    var value := Getenv(env, key);
    if value == "" then fallback else value
  }

  /**
   * The configuration the environment path builds: the five panel keys are
   * taken verbatim, the three server keys are taken verbatim when set and
   * otherwise have non-empty fallbacks, and the online path is fixed.
   */
  function EnvConfig(env: Env): (c: Config)
    ensures forall k :: k in PanelKeys ==> Value(c, k) == Getenv(env, Name(k))
    ensures c.appPort != "" && c.basicAuthUsername != "" && c.basicAuthPassword != ""
    ensures Getenv(env, "APP_PORT") == "" ==> c.appPort == "8080"
    ensures Getenv(env, "BASIC_AUTH_USERNAME") == "" ==> c.basicAuthUsername == "admin"
    ensures Getenv(env, "BASIC_AUTH_PASSWORD") == "" ==> c.basicAuthPassword == "admin"
    ensures Getenv(env, "APP_PORT") != "" ==> c.appPort == Getenv(env, "APP_PORT")
    ensures Getenv(env, "BASIC_AUTH_USERNAME") != "" ==> c.basicAuthUsername == Getenv(env, "BASIC_AUTH_USERNAME")
    ensures Getenv(env, "BASIC_AUTH_PASSWORD") != "" ==> c.basicAuthPassword == Getenv(env, "BASIC_AUTH_PASSWORD")
    ensures c.onlinePath == DefaultOnlinePath
  {
    Config(
      host := GetEnv(env, "HOST", ""),
      port := GetEnv(env, "PORT", ""),
      basepath := GetEnv(env, "BASEPATH", ""),
      username := GetEnv(env, "USERNAME", ""),
      password := GetEnv(env, "PASSWORD", ""),
      onlinePath := DefaultOnlinePath,
      appPort := GetEnv(env, "APP_PORT", "8080"),
      basicAuthUsername := GetEnv(env, "BASIC_AUTH_USERNAME", "admin"),
      basicAuthPassword := GetEnv(env, "BASIC_AUTH_PASSWORD", "admin"))
  }

  // ---------------------------------------------------------------------------
  // The list of missing keys

  /** The keys among `keys` whose field is empty, in the order of `keys`. */
  function MissingAmong(c: Config, keys: seq<Key>): (m: seq<Key>)
    ensures |m| <= |keys|
  {
    if keys == [] then []
    else
      var k := keys[|keys| - 1];
      MissingAmong(c, keys[..|keys| - 1]) + (if Value(c, k) == "" then [k] else [])
  }

  /** The list both loaders report. */
  function Missing(c: Config): (m: seq<Key>)
    ensures |m| <= 8
  {
    MissingAmong(c, RequiredKeys)
  }

  /** A key is reported exactly when it is one of `keys` and its field is empty. */
  lemma {:induction false} MissingAmongMembers(c: Config, keys: seq<Key>)
    ensures forall k :: k in MissingAmong(c, keys) <==> k in keys && Value(c, k) == ""
  {
    if keys != [] {
      var init := keys[..|keys| - 1];
      MissingAmongMembers(c, init);
      assert keys == init + [keys[|keys| - 1]];
    }
  }

  /**
   * The reported keys are a subsequence of `keys`: `idx` gives, for each
   * reported key, its position in `keys`, and the positions strictly increase.
   */
  lemma {:induction false} MissingAmongInOrder(c: Config, keys: seq<Key>) returns (idx: seq<nat>)
    ensures |idx| == |MissingAmong(c, keys)|
    ensures forall i :: 0 <= i < |idx| ==> idx[i] < |keys| && keys[idx[i]] == MissingAmong(c, keys)[i]
    ensures forall i, j :: 0 <= i < j < |idx| ==> idx[i] < idx[j]
  {
    if keys == [] {
      idx := [];
    } else {
      var n := |keys| - 1;
      var init := keys[..n];
      idx := MissingAmongInOrder(c, init);
      if Value(c, keys[n]) == "" {
        idx := idx + [n];
      }
    }
  }

  /** The key list leaves no key out. */
  lemma EveryKeyRequired(k: Key)
    ensures k in RequiredKeys
  {
  }

  /** The missing list names exactly the empty required fields. */
  lemma MissingMembers(c: Config)
    ensures forall k :: k in Missing(c) <==> Value(c, k) == ""
  {
    MissingAmongMembers(c, RequiredKeys);
    forall k: Key ensures k in RequiredKeys {
      EveryKeyRequired(k);
    }
  }

  /** The missing list is empty exactly when the configuration is complete. */
  lemma MissingEmptyIffComplete(c: Config)
    ensures Missing(c) == [] <==> Complete(c)
  {
    MissingMembers(c);
    if Missing(c) != [] {
      assert Missing(c)[0] in Missing(c);
    }
  }

  /**
   * On the environment path only the five panel keys can ever be reported,
   * so only they can trigger the fallback to the file.
   */
  lemma EnvMissingOnlyPanelKeys(env: Env)
    ensures Missing(EnvConfig(env)) == MissingAmong(EnvConfig(env), PanelKeys)
    ensures forall k :: k in Missing(EnvConfig(env)) ==> k in PanelKeys
    ensures Complete(EnvConfig(env)) <==> forall k :: k in PanelKeys ==> Getenv(env, Name(k)) != ""
  {
    var c := EnvConfig(env);
    var ks := RequiredKeys;
    assert ks[..8][..7] == ks[..7] && ks[..7][..6] == ks[..6] && ks[..6][..5] == PanelKeys;
    assert MissingAmong(c, ks[..6]) == MissingAmong(c, PanelKeys);
    assert MissingAmong(c, ks[..7]) == MissingAmong(c, PanelKeys);
    assert ks == ks[..8];
    MissingAmongMembers(c, PanelKeys);
    MissingEmptyIffComplete(c);
    if Complete(c) {
      forall k | k in PanelKeys ensures Getenv(env, Name(k)) != "" {
        assert k in RequiredKeys;
      }
    }
  }

  /** The singleton `[k]` when the field of `k` is empty, else nothing: one `append` of the loaders. */
  function Reported(c: Config, k: Key): seq<Key>
  {
    if Value(c, k) == "" then [k] else []
  }

  /** The missing list written out key by key, as the loaders build it. */
  lemma MissingUnrolled(c: Config)
    ensures Missing(c) == Reported(c, Host) + Reported(c, Port) + Reported(c, Basepath) + Reported(c, Username) + Reported(c, Password) + Reported(c, AppPort) + Reported(c, BasicAuthUsername) + Reported(c, BasicAuthPassword)
  {
    var ks := RequiredKeys;
    assert ks[..1][..0] == ks[..0];
    assert MissingAmong(c, ks[..1]) == Reported(c, Host);
    assert ks[..2][..1] == ks[..1];
    assert MissingAmong(c, ks[..2]) == Reported(c, Host) + Reported(c, Port);
    assert ks[..3][..2] == ks[..2];
    assert MissingAmong(c, ks[..3]) == Reported(c, Host) + Reported(c, Port) + Reported(c, Basepath);
    assert ks[..4][..3] == ks[..3];
    assert MissingAmong(c, ks[..4]) == Reported(c, Host) + Reported(c, Port) + Reported(c, Basepath) + Reported(c, Username);
    assert ks[..5][..4] == ks[..4];
    assert MissingAmong(c, ks[..5]) == Reported(c, Host) + Reported(c, Port) + Reported(c, Basepath) + Reported(c, Username) + Reported(c, Password);
    assert ks[..6][..5] == ks[..5];
    assert MissingAmong(c, ks[..6]) == Reported(c, Host) + Reported(c, Port) + Reported(c, Basepath) + Reported(c, Username) + Reported(c, Password) + Reported(c, AppPort);
    assert ks[..7][..6] == ks[..6];
    assert MissingAmong(c, ks[..7]) == Reported(c, Host) + Reported(c, Port) + Reported(c, Basepath) + Reported(c, Username) + Reported(c, Password) + Reported(c, AppPort) + Reported(c, BasicAuthUsername);
    assert ks[..8][..7] == ks[..7];
    assert MissingAmong(c, ks[..8]) == Reported(c, Host) + Reported(c, Port) + Reported(c, Basepath) + Reported(c, Username) + Reported(c, Password) + Reported(c, AppPort) + Reported(c, BasicAuthUsername) + Reported(c, BasicAuthPassword);
    assert ks == ks[..8];
  }

  /**
   * Both loaders test the eight required fields one by one and append the
   * name of each empty one.
   */
  method CollectMissing(c: Config) returns (missing: seq<Key>)
    ensures missing == Missing(c)
  {
    missing := [];
    if c.host == "" {
      missing := missing + [Host];
    }
    assert missing == Reported(c, Host);
    if c.port == "" {
      missing := missing + [Port];
    }
    assert missing == Reported(c, Host) + Reported(c, Port);
    if c.basepath == "" {
      missing := missing + [Basepath];
    }
    assert missing == Reported(c, Host) + Reported(c, Port) + Reported(c, Basepath);
    if c.username == "" {
      missing := missing + [Username];
    }
    assert missing == Reported(c, Host) + Reported(c, Port) + Reported(c, Basepath) + Reported(c, Username);
    if c.password == "" {
      missing := missing + [Password];
    }
    assert missing == Reported(c, Host) + Reported(c, Port) + Reported(c, Basepath) + Reported(c, Username) + Reported(c, Password);
    if c.appPort == "" {
      missing := missing + [AppPort];
    }
    assert missing == Reported(c, Host) + Reported(c, Port) + Reported(c, Basepath) + Reported(c, Username) + Reported(c, Password) + Reported(c, AppPort);
    if c.basicAuthUsername == "" {
      missing := missing + [BasicAuthUsername];
    }
    assert missing == Reported(c, Host) + Reported(c, Port) + Reported(c, Basepath) + Reported(c, Username) + Reported(c, Password) + Reported(c, AppPort) + Reported(c, BasicAuthUsername);
    if c.basicAuthPassword == "" {
      missing := missing + [BasicAuthPassword];
    }
    assert missing == Reported(c, Host) + Reported(c, Port) + Reported(c, Basepath) + Reported(c, Username) + Reported(c, Password) + Reported(c, AppPort) + Reported(c, BasicAuthUsername) + Reported(c, BasicAuthPassword);
    MissingUnrolled(c);
  }

  // ---------------------------------------------------------------------------
  // Loading from the file and from the environment

  /** What reading the configuration file can give. */
  datatype ConfigFile =
    | Unopenable          // the file cannot be opened
    | Undecodable         // the file is not valid YAML for a configuration
    | Decoded(contents: Config)

  datatype ConfigError =
    | OpenFailed
    | DecodeFailed
    | MissingEntries(keys: seq<Key>)

  /**
   * The outcome of loading from the file: an open or decode failure is fatal,
   * an incomplete file is fatal with the list of missing entries, and a
   * complete one is accepted with an empty online path replaced by the default.
   * No default is supplied for the server port or the basic-auth credentials.
   */
  function FromFile(file: ConfigFile): (r: Result<Config, ConfigError>)
    ensures file.Unopenable? ==> r == Err(OpenFailed)
    ensures file.Undecodable? ==> r == Err(DecodeFailed)
    ensures file.Decoded? ==> (r.Ok? <==> Complete(file.contents))
    ensures file.Decoded? && r.Err? ==> r.error == MissingEntries(Missing(file.contents)) && Missing(file.contents) != []
    ensures r.Ok? ==> file.Decoded? && Usable(r.value)
    ensures r.Ok? ==> r.value.(onlinePath := file.contents.onlinePath) == file.contents
    ensures r.Ok? && file.contents.onlinePath != "" ==> r.value.onlinePath == file.contents.onlinePath
    ensures r.Ok? && file.contents.onlinePath == "" ==> r.value.onlinePath == DefaultOnlinePath
  {
    match file
    case Unopenable => Err(OpenFailed)
    case Undecodable => Err(DecodeFailed)
    case Decoded(c) =>
      MissingEmptyIffComplete(c);
      if Missing(c) != [] then Err(MissingEntries(Missing(c)))
      else if c.onlinePath == "" then
        var defaulted := c.(onlinePath := DefaultOnlinePath);
        assert forall k: Key :: Value(defaulted, k) == Value(c, k);
        Ok(defaulted)
      else Ok(c)
  }

  /** Loading from the file: collect the missing list, default the online path in place, then decide. */
  method FileConfig(file: ConfigFile) returns (r: Result<Config, ConfigError>)
    ensures r == FromFile(file)
  {
    match file
    case Unopenable =>
      return Err(OpenFailed);
    case Undecodable =>
      return Err(DecodeFailed);
    case Decoded(decoded) =>
      var config := decoded;
      var missing := CollectMissing(config);
      if config.onlinePath == "" {
        config := config.(onlinePath := DefaultOnlinePath);
      }
      if |missing| > 0 {
        return Err(MissingEntries(missing));
      }
      return Ok(config);
  }

  /**
   * The environment configuration is used, verbatim, exactly when it is
   * complete; otherwise the outcome is the file's. Whatever is returned
   * successfully satisfies the agent's invariant.
   */
  method LoadConfig(env: Env, file: ConfigFile) returns (r: Result<Config, ConfigError>)
    ensures Complete(EnvConfig(env)) ==> r == Ok(EnvConfig(env))
    ensures !Complete(EnvConfig(env)) ==> r == FromFile(file)
    ensures r.Ok? ==> Usable(r.value)
  {
    var config := EnvConfig(env);
    var missing := CollectMissing(config);
    MissingEmptyIffComplete(config);
    if |missing| > 0 {
      r := FileConfig(file);
      return;
    }
    return Ok(config);
  }
}
