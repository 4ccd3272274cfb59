/**
 * Start-up decisions of server.js before any middleware exists: the parse of
 * argv, `--help`, which configuration file is read, and which port is listened on.
 */
module Startup {
  import opened Wrappers
  import opened Json
  import opened Platform
  import opened Arguments

  const DefaultConfigFile: string := "./server-config.json"
  const ConfigNotFoundCode: int := 404
  const DefaultPort: PlainInt := 8080

  /** How start-up ends when nothing fails: help is printed, or the server starts from a file. */
  datatype Launch = ShowHelp | Serve(configFile: string)

  function ConfigNotFound(file: string): Exit {
    Exit(ConfigNotFoundCode, "Configuration file not found. Please add \"" + file
      + "\" file or provide a path through \"--config <file name>\" option")
  }

  /** `String(configFile)`, where `None` is `undefined`. */
  function FileText(file: Option<string>): string {
    if file.Some? then file.value else "undefined"
  }

  /** The configuration file `--config p` names: `p`, or the default file name inside `p` when `p` is a directory. */
  function ConfigPath(p: string, host: Host): string {
    if host.fileExists(p) && host.isDirectory(p) then host.join(p, DefaultConfigFile) else p
  }

  /** The start-up outcome when argv parses and `--help` is absent. */
  function Selected(file: string, host: Host): Result<Launch, Exit> {
    if host.fileExists(file) then Ok(Serve(file)) else Err(ConfigNotFound(file))
  }

  /** The option names of `possibleServerArgs`. */
  lemma ServerNames()
    ensures Names(ServerArgs) == ["--help", "--config"]
  {
  }

  /** A step for an option without sub-arguments never fails. */
  lemma NoSubArgStep(argv: seq<string>, names: seq<string>, res: Parsed, spec: ArgSpec)
    requires spec.subArgs == []
    ensures ParseStep(argv, names, res, spec) == Ok(if spec.name in argv then res[spec.name := []] else res)
  {
    var at := IndexOf(argv, spec.name);
    if at > -1 {
      assert CollectSubArgs(argv, names, spec, at, 0) == Ok([]);
    }
  }

  /** A step for an option with one sub-argument takes the next token, which must fill its slot. */
  lemma OneSubArgStep(argv: seq<string>, names: seq<string>, res: Parsed, spec: ArgSpec)
    requires |spec.subArgs| == 1
    ensures var at := IndexOf(argv, spec.name);
      ParseStep(argv, names, res, spec) ==
        if at == -1 then Ok(res)
        else if SlotFilled(argv, names, at + 1) then Ok(res[spec.name := [argv[at + 1]]])
        else Err(MissingSubArg(spec, 0))
  {
    var at := IndexOf(argv, spec.name);
    if at > -1 {
      assert CollectSubArgs(argv, names, spec, at, 0) == Ok([]);
      if SlotFilled(argv, names, at + 1) {
        assert [] + [argv[at + 1]] == [argv[at + 1]];
      }
    }
  }

  /**
   * Parsing argv against `possibleServerArgs`: `--help` gets an empty entry
   * when present; `--config` takes the next token, which must exist and must
   * not be `--help` or `--config`.
   */
  lemma ServerArgsParse(argv: seq<string>)
    ensures var base: Parsed := if "--help" in argv then map["--help" := []] else map[];
      var at := IndexOf(argv, "--config");
      Parse(ServerArgs, argv) ==
        if at == -1 then Ok(base)
        else if at + 1 < |argv| && argv[at + 1] != "--help" && argv[at + 1] != "--config" then
          Ok(base["--config" := [argv[at + 1]]])
        else Err(MissingSubArg(ServerArgs[1], 0))
  {
    var names := Names(ServerArgs);
    var base: Parsed := if "--help" in argv then map["--help" := []] else map[];
    NoSubArgStep(argv, names, map[], ServerArgs[0]);
    assert ParseUpTo(ServerArgs, argv, 1) == Ok(base);
    OneSubArgStep(argv, names, base, ServerArgs[1]);
    assert Parse(ServerArgs, argv) == ParseStep(argv, names, base, ServerArgs[1]);
    var at := IndexOf(argv, "--config");
    if at > -1 && at + 1 < |argv| {
      IsOptionName(argv[at + 1]);
    }
  }

  lemma IsOptionName(token: string)
    ensures IndexOf(Names(ServerArgs), token) > -1 <==> token == "--help" || token == "--config"
  {
    ServerNames();
  }

  /** Parsing argv against `possibleServerArgs` fails exactly when `--config` is the last token or is followed by an option name. */
  lemma ServerArgsFailure(argv: seq<string>)
    ensures Parse(ServerArgs, argv).Err? <==>
      var at := IndexOf(argv, "--config");
      at > -1 && (at + 1 == |argv| || argv[at + 1] == "--help" || argv[at + 1] == "--config")
    ensures Parse(ServerArgs, argv).Err? ==> Parse(ServerArgs, argv).error.code == MissingSubArgCode
  {
    ServerArgsParse(argv);
  }

  /** When argv parses, `--help` and `--config` have entries exactly when they occur, `--config`'s holding the next token. */
  lemma ServerArgsEntries(argv: seq<string>)
    requires Parse(ServerArgs, argv).Ok?
    ensures "--help" in Parse(ServerArgs, argv).value <==> "--help" in argv
    ensures "--config" in Parse(ServerArgs, argv).value <==> "--config" in argv
    ensures "--config" in argv ==>
      var at := IndexOf(argv, "--config");
      at + 1 < |argv| && Parse(ServerArgs, argv).value["--config"] == [argv[at + 1]]
  {
    ServerArgsParse(argv);
  }

  /**
   * Start-up as server.js runs it: argv errors first (exit 16), then
   * `--help`, then the configuration file: `./server-config.json` without
   * `--config`, else the token after `--config` (its `server-config.json`
   * when it is a directory); a file that does not exist ends with exit 404.
   */
  method Boot(argv: seq<string>, host: Host) returns (r: Result<Launch, Exit>)
    ensures r.Err? ==> r.error.code == MissingSubArgCode || r.error.code == ConfigNotFoundCode
    ensures r.Err? && r.error.code == MissingSubArgCode <==> Parse(ServerArgs, argv).Err?
    ensures Parse(ServerArgs, argv).Ok? && "--help" in argv ==> r == Ok(ShowHelp)
    ensures Parse(ServerArgs, argv).Ok? && "--help" !in argv && "--config" !in argv ==>
      r == Selected(DefaultConfigFile, host)
    ensures Parse(ServerArgs, argv).Ok? && "--help" !in argv && "--config" in argv ==>
      var at := IndexOf(argv, "--config");
      at + 1 < |argv| && r == Selected(ConfigPath(argv[at + 1], host), host)
  {
    ServerArgsParse(argv);
    var parsed := ParseArguments(ServerArgs, argv);
    if parsed.Err? {
      return Err(parsed.error);
    }
    var serverArgs := parsed.value;
    if "--help" in serverArgs {
      return Ok(ShowHelp);
    }
    var configFile: Option<string> := Some(DefaultConfigFile);
    if "--config" in serverArgs {
      var args := serverArgs["--config"];
      configFile := if |args| > 0 then Some(args[0]) else None;
      if configFile.Some? && host.fileExists(configFile.value) && host.isDirectory(configFile.value) {
        configFile := Some(host.join(configFile.value, DefaultConfigFile));
      }
      assert configFile == Some(ConfigPath(argv[IndexOf(argv, "--config") + 1], host));
    }
    if configFile.None? || !host.fileExists(configFile.value) {
      return Err(ConfigNotFound(FileText(configFile)));
    }
    return Ok(Serve(configFile.value));
  }

  /**
   * `(config && config.port) || process.env.PORT || 8080`; `configPort` is
   * `Undefined` when the configuration is null or has no port.
   */
  function SelectPort(configPort: Value, envPort: Option<string>): (port: Value)
    ensures Truthy(port)
    ensures Truthy(configPort) ==> port == configPort
    ensures !Truthy(configPort) && envPort.Some? && envPort.value != "" ==> port == Str(envPort.value)
    ensures !Truthy(configPort) && (envPort.None? || envPort.value == "") ==> port == Number(DefaultPort)
  {
    if Truthy(configPort) then configPort
    else if envPort.Some? && Truthy(Str(envPort.value)) then Str(envPort.value)
    else Number(DefaultPort)
  }
}
