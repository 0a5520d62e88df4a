/**
 * The host configuration (core/src/config/mod.rs): the config root directory,
 * set once; the per-plugin tables layered file < environment < command line;
 * and the "config" request handler that reads them.
 *
 * The file tables, the environment variables, the command-line options and the
 * platform config directory are parameters: reading them is I/O.
 */
module ConfigStore {
  import opened Wrappers
  import opened Texts
  import opened Util
  import opened CliConfig

  type Table = map<string, TomlValue>
  type Configs = map<string, Table>

  /** A path: absolute or relative, and its components. */
  datatype Path = Path(absolute: bool, parts: seq<string>)

  /** Path::join: an absolute path replaces the base, a relative one extends it. */
  function JoinPath(base: Path, p: Path): (r: Path)
    ensures r.absolute <==> base.absolute || p.absolute
    ensures p.absolute ==> r == p
    ensures !p.absolute ==> r.parts == base.parts + p.parts
  {
    if p.absolute then p else Path(base.absolute, base.parts + p.parts)
  }

  /** Path::file_name: the last component, unless there is none or it is "..". */
  function FileName(p: Path): (r: Option<string>)
    ensures r.Some? ==> |p.parts| > 0 && r.value == p.parts[|p.parts| - 1] && r.value != ".."
  {
    if p.parts == [] || p.parts[|p.parts| - 1] == ".." then None else Some(p.parts[|p.parts| - 1])
  }

  datatype ConfigError = CliFailure(cli: CliError) | ConfigRootAlreadySet | NoConfigDir

  /** The first character of each non-empty '_'-separated word. */
  function Initials(words: seq<string>): (r: string)
    ensures |r| <= |words|
    ensures (forall i :: 0 <= i < |words| ==> words[i] != []) ==> |r| == |words|
    ensures (forall i :: 0 <= i < |words| ==> words[i] != []) ==> forall i :: 0 <= i < |words| ==> r[i] == words[i][0]
    ensures forall c :: c in r <==> exists i :: 0 <= i < |words| && words[i] != [] && words[i][0] == c
  {
    if words == [] then []
    else
      var rest := words[1..];
      assert forall i :: 1 <= i < |words| ==> words[i] == rest[i - 1];
      (if words[0] == [] then [] else [words[0][0]]) + Initials(rest)
  }

  /** The initials of two runs of words are those of the first run, then those of the second. */
  lemma {:induction false} InitialsConcat(a: seq<string>, b: seq<string>)
    ensures Initials(a + b) == Initials(a) + Initials(b)
    decreases |a|
  {
    if a != [] {
      var head := if a[0] == [] then [] else [a[0][0]];
      assert (a + b)[0] == a[0] && (a + b)[1..] == a[1..] + b;
      assert Initials(a + b) == head + Initials(a[1..] + b);
      InitialsConcat(a[1..], b);
      assert Initials(a) == head + Initials(a[1..]);
    } else {
      assert a + b == b;
    }
  }

  /**
   * Config::env_prefix from the root directory's name in CONSTANT_CASE (the
   * case conversion is the `constantCase` parameter).
   */
  function EnvPrefix(rootDir: Option<Path>, constantCase: string -> string): (r: Result<string, ConfigError>)
    ensures rootDir.None? ==> r == Err(NoConfigDir)
    ensures rootDir.Some? && FileName(rootDir.value).None? ==> r == Err(NoConfigDir)
    ensures r.Err? ==> r.error == NoConfigDir
    ensures r.Ok? <==> rootDir.Some? && FileName(rootDir.value).Some?
    ensures r.Ok? ==> r.value == Initials(Split(constantCase(FileName(rootDir.value).value), '_'))
  {
    if rootDir.None? then Err(NoConfigDir)
    else if FileName(rootDir.value).None? then Err(NoConfigDir)
    else
      var converted := constantCase(FileName(rootDir.value).value);
      SplitPieces(converted, '_');
      Ok(Initials(Split(converted, '_')))
  }

  /** The option text parse_env makes of a variable: the name past the prefix, '=', the value. */
  function EnvEntry(v: (string, string), prefix: string): string
    requires prefix <= v.0
  {
    v.0[|prefix|..] + "=" + v.1
  }

  /**
   * The environment variables parse_env reads: those whose name starts with
   * the prefix, written `<rest of the name>=<value>`.
   */
  function Stripped(vars: seq<(string, string)>, prefix: string): (r: seq<string>)
    ensures |r| <= |vars|
    ensures forall i :: 0 <= i < |r| ==> exists j :: 0 <= j < |vars| && prefix <= vars[j].0 && r[i] == EnvEntry(vars[j], prefix)
    ensures (forall j :: 0 <= j < |vars| ==> !(prefix <= vars[j].0)) ==> r == []
    ensures forall j :: 0 <= j < |vars| && prefix <= vars[j].0 ==> EnvEntry(vars[j], prefix) in r
    ensures (forall j :: 0 <= j < |vars| ==> prefix <= vars[j].0) ==> |r| == |vars|
  {
    if vars == [] then []
    else
      var tail := vars[1..];
      var rest := Stripped(tail, prefix);
      assert forall j :: 1 <= j < |vars| ==> vars[j] == tail[j - 1];
      if prefix <= vars[0].0 then [EnvEntry(vars[0], prefix)] + rest else rest
  }

  /** The variables of two runs are stripped in order: those of the first run, then those of the second. */
  lemma {:induction false} StrippedConcat(a: seq<(string, string)>, b: seq<(string, string)>, prefix: string)
    ensures Stripped(a + b, prefix) == Stripped(a, prefix) + Stripped(b, prefix)
    decreases |a|
  {
    if a != [] {
      var head := if prefix <= a[0].0 then [EnvEntry(a[0], prefix)] else [];
      assert (a + b)[0] == a[0] && (a + b)[1..] == a[1..] + b;
      assert Stripped(a + b, prefix) == head + Stripped(a[1..] + b, prefix);
      StrippedConcat(a[1..], b, prefix);
      assert Stripped(a, prefix) == head + Stripped(a[1..], prefix);
    } else {
      assert a + b == b;
    }
  }

  /** Config::parse_env: every stripped variable parsed as an option; one failure fails all. */
  function ParseEnv(vars: seq<(string, string)>, prefix: string, rec: Recognisers): Result<seq<PluginOption>, CliError>
  {
    CollectAll(Stripped(vars, prefix), s => FromStr(s, rec))
  }

  /** `.map(parse).collect::<Result<Vec<_>, _>>()`: all parsed in order, or the first failure. */
  function CollectAll<T, E>(args: seq<string>, parse: string -> Result<T, E>): (r: Result<seq<T>, E>)
    ensures r.Ok? ==> |r.value| == |args|
    ensures r.Ok? ==> forall i :: 0 <= i < |args| ==> parse(args[i]) == Ok(r.value[i])
    ensures r.Err? <==> exists i :: 0 <= i < |args| && parse(args[i]).Err?
    ensures r.Err? ==> exists i :: 0 <= i < |args| && parse(args[i]) == Err(r.error)
  {
    if args == [] then Ok([])
    else
      var rest := args[1..];
      assert forall i :: 1 <= i < |args| ==> args[i] == rest[i - 1];
      match parse(args[0])
      case Err(e) => Err(e)
      case Ok(head) =>
        match CollectAll(rest, parse)
        case Err(e) => Err(e)
        case Ok(tail) => Ok([head] + tail)
  }

  /** The inner merge of init: a key in both tables takes the overriding value. */
  function KeepOverride(key: string, base: TomlValue, over: TomlValue): TomlValue { over }

  /** The outer merge of init: a plugin in both merges its tables key by key. */
  function MergeTables(pluginName: string, base: Table, over: Table): Table {
    Merged(base, over, KeepOverride)
  }

  /** One layer of configuration laid over another. */
  function Overlay(base: Configs, over: Configs): Configs {
    Merged(base, over, MergeTables)
  }

  /**
   * In the overlay a plugin has a table when either layer does, a key is set
   * when either layer sets it, and the overriding layer's value wins.
   */
  lemma OverlayPrecedence(base: Configs, over: Configs)
    ensures forall p :: p in Overlay(base, over) <==> p in base || p in over
    ensures forall p, k :: p in Overlay(base, over) && k in Overlay(base, over)[p] <==>
              (p in over && k in over[p]) || (p in base && k in base[p])
    ensures forall p, k :: p in over && k in over[p] ==> Overlay(base, over)[p][k] == over[p][k]
    ensures forall p, k :: p in base && k in base[p] && !(p in over && k in over[p]) ==>
              Overlay(base, over)[p][k] == base[p][k]
  {
    MergedSpec(base, over, MergeTables);
    forall p | p in base && p in over
      ensures Overlay(base, over)[p] == Merged(base[p], over[p], KeepOverride)
    {
    }
    forall p | p in base && p in over {
      MergedSpec(base[p], over[p], KeepOverride);
    }
  }

  /** What Config::init stores: file tables, under the environment's, under the command line's. */
  function Layered(files: Configs, envOptions: seq<PluginOption>, cliOptions: seq<PluginOption>): Configs {
    Overlay(Overlay(files, Grouped(envOptions)), Grouped(cliOptions))
  }

  /** The value a (plugin, key) takes: the command line's if given, else the environment's, else the file's. */
  function Effective(files: Configs, envOptions: seq<PluginOption>, cliOptions: seq<PluginOption>, p: string, k: string)
    : Option<TomlValue>
  {
    if LastValue(cliOptions, p, k).Some? then LastValue(cliOptions, p, k)
    else if LastValue(envOptions, p, k).Some? then LastValue(envOptions, p, k)
    else if p in files && k in files[p] then Some(files[p][k])
    else None
  }

  /** After init each (plugin, key) holds the command line's, else the environment's, else the file's value. */
  lemma LayeredPrecedence(files: Configs, envOptions: seq<PluginOption>, cliOptions: seq<PluginOption>)
    ensures forall p, k :: (p in Layered(files, envOptions, cliOptions) && k in Layered(files, envOptions, cliOptions)[p])
              <==> Effective(files, envOptions, cliOptions, p, k).Some?
    ensures forall p, k :: p in Layered(files, envOptions, cliOptions) && k in Layered(files, envOptions, cliOptions)[p] ==>
              Layered(files, envOptions, cliOptions)[p][k] == Effective(files, envOptions, cliOptions, p, k).value
  {
    GroupedSpec(envOptions);
    GroupedSpec(cliOptions);
    OverlayPrecedence(files, Grouped(envOptions));
    OverlayPrecedence(Overlay(files, Grouped(envOptions)), Grouped(cliOptions));
  }

  /** A plugin has a table after init when it has a file or any option names it. */
  lemma LayeredPlugins(files: Configs, envOptions: seq<PluginOption>, cliOptions: seq<PluginOption>)
    ensures forall p :: p in Layered(files, envOptions, cliOptions) <==>
              p in files
              || (exists i :: 0 <= i < |envOptions| && envOptions[i].pluginName == p)
              || (exists i :: 0 <= i < |cliOptions| && cliOptions[i].pluginName == p)
  {
    GroupedSpec(envOptions);
    GroupedSpec(cliOptions);
    OverlayPrecedence(files, Grouped(envOptions));
    OverlayPrecedence(Overlay(files, Grouped(envOptions)), Grouped(cliOptions));
  }

  datatype Action = Load | Reload | Save

  /** The request arguments, when they deserialize. */
  datatype ConfigArgs = ConfigArgs(action: Action, key: Option<string>, value: Option<TomlValue>)

  /** The errors the config handler answers with. */
  datatype RequestError = CoreInternalError | NotFound | InvalidJson | InvalidApi

  /** What the handler answers or hands on: a loaded table or value, a save, a reload. */
  datatype Outcome =
    | TableReply(table: Table)
    | ValueReply(value: TomlValue)
    | SaveEntry(pluginName: string, key: string, value: TomlValue)
    | ReloadAll

  /** load_config: the plugin's whole table, or the value under one key. */
  function LoadConfig(configs: Configs, pluginName: string, key: Option<string>): (r: Result<Outcome, RequestError>)
    ensures pluginName !in configs ==> r == Err(NotFound)
    ensures pluginName in configs && key.None? ==> r == Ok(TableReply(configs[pluginName]))
    ensures pluginName in configs && key.Some? ==>
              if key.value in configs[pluginName] then r == Ok(ValueReply(configs[pluginName][key.value]))
              else r == Err(NotFound)
  {
    if pluginName !in configs then Err(NotFound)
    else if key.None? then Ok(TableReply(configs[pluginName]))
    else if key.value !in configs[pluginName] then Err(NotFound)
    else Ok(ValueReply(configs[pluginName][key.value]))
  }

  /** Loading one key after init answers the effective value, or NotFound when no source sets it. */
  lemma LoadAfterInit(files: Configs, envOptions: seq<PluginOption>, cliOptions: seq<PluginOption>, p: string, k: string)
    ensures var r := LoadConfig(Layered(files, envOptions, cliOptions), p, Some(k));
            && (Effective(files, envOptions, cliOptions, p, k).Some? ==>
                  r == Ok(ValueReply(Effective(files, envOptions, cliOptions, p, k).value)))
            && (Effective(files, envOptions, cliOptions, p, k).None? ==> r == Err(NotFound))
  {
    LayeredPrecedence(files, envOptions, cliOptions);
  }

  /** A file of the config directory: its file name and the table it holds. */
  datatype ConfigFile = ConfigFile(name: string, table: Table)

  /** Path::extension is "toml": the name is ".toml" after at least one character. */
  predicate TomlName(name: string) {
    |name| > 5 && name[|name| - 5..] == ".toml"
  }

  /** The file name without its ".toml" extension. */
  function Stem(name: string): (s: string)
    requires TomlName(name)
    ensures |s| > 0 && s + ".toml" == name
  {
    name[..|name| - 5]
  }

  /** parse_files as written: each ".toml" file's table under its whole file name; a later file wins. */
  function FilesAsWritten(dir: seq<ConfigFile>): (r: Configs)
    ensures forall n :: n in r ==> TomlName(n)
    ensures forall i :: 0 <= i < |dir| && TomlName(dir[i].name) ==> dir[i].name in r
  {
    if dir == [] then map[]
    else
      var rest := dir[1..];
      assert forall i :: 1 <= i < |dir| ==> dir[i] == rest[i - 1];
      (if TomlName(dir[0].name) then map[dir[0].name := dir[0].table] else map[]) + FilesAsWritten(rest)
  }

  /**
   * As written, a plugin whose name does not end in ".toml" gets nothing from
   * the files: load_config("p") finds no table even though "p.toml" holds one.
   */
  lemma FilesAsWrittenUnreachable(dir: seq<ConfigFile>, p: string, k: string)
    requires !TomlName(p)
    ensures LoadConfig(Layered(FilesAsWritten(dir), [], []), p, Some(k)) == Err(NotFound)
  {
    LoadAfterInit(FilesAsWritten(dir), [], [], p, k);
  }

  /** parse_files keyed by the file stem, the plugin name the layers and load_config look up; a later file wins. */
  function Files(dir: seq<ConfigFile>): (r: Configs)
    ensures forall n :: n in r <==> exists i :: 0 <= i < |dir| && TomlName(dir[i].name) && Stem(dir[i].name) == n
  {
    if dir == [] then map[]
    else
      var rest := dir[1..];
      assert forall i :: 1 <= i < |dir| ==> dir[i] == rest[i - 1];
      (if TomlName(dir[0].name) then map[Stem(dir[0].name) := dir[0].table] else map[]) + Files(rest)
  }

  /** With the files of a directory, whose names differ, each plugin's file is found under the plugin's name. */
  lemma {:induction false} FilesFound(dir: seq<ConfigFile>, i: nat)
    requires forall a, b :: 0 <= a < b < |dir| ==> dir[a].name != dir[b].name
    requires i < |dir| && TomlName(dir[i].name)
    ensures Stem(dir[i].name) in Files(dir) && Files(dir)[Stem(dir[i].name)] == dir[i].table
    decreases |dir|
  {
    var rest := dir[1..];
    assert forall a :: 1 <= a < |dir| ==> dir[a] == rest[a - 1];
    if i == 0 {
      forall j | 0 <= j < |rest| && TomlName(rest[j].name) ensures Stem(rest[j].name) != Stem(dir[0].name) {
        assert rest[j].name == dir[j + 1].name != dir[0].name;
      }
    } else {
      FilesFound(rest, i - 1);
    }
  }

  /** With the files keyed by stem, load_config("p") answers what "p.toml" sets. */
  lemma FilesLoad(dir: seq<ConfigFile>, i: nat, k: string)
    requires forall a, b :: 0 <= a < b < |dir| ==> dir[a].name != dir[b].name
    requires i < |dir| && TomlName(dir[i].name) && k in dir[i].table
    ensures LoadConfig(Layered(Files(dir), [], []), Stem(dir[i].name), Some(k)) == Ok(ValueReply(dir[i].table[k]))
  {
    FilesFound(dir, i);
    LoadAfterInit(Files(dir), [], [], Stem(dir[i].name), k);
  }

  /**
   * The configuration: the tables init stored and the root directory, which
   * can be set once.
   */
  class Config {
    var configs: Configs
    var rootDir: Option<Path>

    constructor()
      ensures configs == map[] && rootDir == None
    {
      configs := map[];
      rootDir := None;
    }

    /** Config::config_dir. */
    function ConfigDir(): (r: Result<Path, ConfigError>)
      reads this`rootDir
      ensures rootDir.None? <==> r == Err(NoConfigDir)
      ensures rootDir.Some? ==> r == Ok(rootDir.value)
    {
      if rootDir.Some? then Ok(rootDir.value) else Err(NoConfigDir)
    }

    /**
     * Config::set_config_dir: a relative name is taken under the platform
     * config directory; the root is set by the first call that gets this far.
     */
    method SetConfigDir(dir: Path, platformDir: Option<Path>) returns (r: Result<(), ConfigError>)
      modifies this`rootDir
      ensures !dir.absolute && platformDir.None? ==> r == Err(NoConfigDir) && rootDir == old(rootDir)
      ensures (dir.absolute || platformDir.Some?) && old(rootDir).Some? ==>
                r == Err(ConfigRootAlreadySet) && rootDir == old(rootDir)
      ensures (dir.absolute || platformDir.Some?) && old(rootDir).None? ==>
                r == Ok(()) && rootDir == Some(if dir.absolute then dir else JoinPath(platformDir.value, dir))
    {
      var path := dir;
      if !dir.absolute {
        if platformDir.None? {
          return Err(NoConfigDir);
        }
        path := JoinPath(platformDir.value, dir);
      }
      if rootDir.Some? {
        return Err(ConfigRootAlreadySet);
      }
      rootDir := Some(path);
      r := Ok(());
    }

    /**
     * Config::init, corrected: reads the file tables of `dir`, the config
     * directory's files (needing the root directory), keyed by their stem,
     * the plugin name (`Files`; as written they are keyed by the whole file
     * name, `FilesAsWritten`), parses
     * the prefixed environment variables, and stores the file tables overlaid
     * by the environment's and then the command line's.
     */
    method Init(dir: seq<ConfigFile>, vars: seq<(string, string)>, constantCase: string -> string,
                cliOptions: seq<PluginOption>, rec: Recognisers)
      returns (r: Result<(), ConfigError>)
      modifies this`configs
      ensures rootDir.None? ==> r == Err(NoConfigDir)
      ensures EnvPrefix(rootDir, constantCase).Err? ==> r == Err(NoConfigDir)
      ensures EnvPrefix(rootDir, constantCase).Ok? && ParseEnv(vars, EnvPrefix(rootDir, constantCase).value, rec).Err? ==>
                r == Err(CliFailure(ParseEnv(vars, EnvPrefix(rootDir, constantCase).value, rec).error))
      ensures r.Err? ==> configs == old(configs)
      ensures r.Ok? ==>
                EnvPrefix(rootDir, constantCase).Ok? && ParseEnv(vars, EnvPrefix(rootDir, constantCase).value, rec).Ok?
                && configs == Layered(Files(dir), ParseEnv(vars, EnvPrefix(rootDir, constantCase).value, rec).value, cliOptions)
    {
      var root := ConfigDir();
      if root.Err? {
        return Err(root.error);
      }
      var prefix := EnvPrefix(rootDir, constantCase);
      if prefix.Err? {
        return Err(prefix.error);
      }
      var envOptions := ParseEnv(vars, prefix.value, rec);
      if envOptions.Err? {
        return Err(CliFailure(envOptions.error));
      }
      var envOverrides := JoinTable(envOptions.value);
      var cliOverrides := JoinTable(cliOptions);
      var envFileConfigs := JoinMerge(Files(dir), envOverrides, MergeTables);
      var cliEnvFileConfigs := JoinMerge(envFileConfigs, cliOverrides, MergeTables);
      configs := cliEnvFileConfigs;
      r := Ok(());
    }

    /**
     * handle for the "config" request: InvalidJson for arguments that do not
     * deserialize; Load reads the tables, Save needs a key and a value, Reload
     * re-runs init; anything else is InvalidApi.
     */
    function Handle(pluginName: string, args: Option<ConfigArgs>): (r: Result<Outcome, RequestError>)
      reads this`configs
      ensures args.None? ==> r == Err(InvalidJson)
      ensures args.Some? && args.value.action == Load ==> r == LoadConfig(configs, pluginName, args.value.key)
      ensures args.Some? && args.value.action == Save ==>
                if args.value.key.Some? && args.value.value.Some? then
                  r == Ok(SaveEntry(pluginName, args.value.key.value, args.value.value.value))
                else r == Err(InvalidApi)
      ensures args.Some? && args.value.action == Reload ==> r == Ok(ReloadAll)
    {
      if args.None? then Err(InvalidJson)
      else match args.value
        case ConfigArgs(Load, key, _) => LoadConfig(configs, pluginName, key)
        case ConfigArgs(Save, Some(key), Some(value)) => Ok(SaveEntry(pluginName, key, value))
        case ConfigArgs(Reload, _, _) => Ok(ReloadAll)
        case _ => Err(InvalidApi)
    }
  }
}
