/** The injector's entry point (Program.cs, `Main`), as the trace of effects
    one run produces. The filesystem scan, the Irony parser, the BO2 GSC
    compiler and config.json are parameters; PS3Lib calls are trace events. */
module Program {
  import opened Wrappers
  import opened Words
  import opened Config
  import opened Backend
  import opened Diagnostics
  import opened Assembly
  import opened Effects
  import opened Injection

  /** The two command-line parameters; `None` is a parameter not given. */
  datatype Args = Args(api: Option<string>, projectDirectory: Option<string>)

  /** Everything a run depends on besides its arguments. */
  datatype Environment = Environment(
    configFile: ConfigFile,                  // config.json as the loader finds it
    defaultConfig: Configuration,            // the generated MP and ZM settings
    scan: string -> seq<SourceFile>,         // the `.gsc` files under a directory, in enumeration order
    parse: Parser,                           // parser messages for a text
    compile: (string, string) -> seq<Byte>)  // compiled buffer for a script and its in-game path

  /** The directory actually scanned, whatever directory argument is given. */
  const ScannedDirectory: string := "test-project"

  /** The in-game path the compiled script reports as. */
  const CompiledScriptPath: string := "maps/mp/gametypes/_clientids.gsc"

  function ConfigEffects(loaded: Loaded): seq<Effect> {
    [LoadConfig] + if loaded.regenerated then [WriteConfig(loaded.config)] else []
  }

  function ReadEffects(paths: seq<string>): seq<Effect> {
    seq(|paths|, i requires 0 <= i < |paths| => ReadSource(paths[i]))
  }

  function ReportEffects(errors: seq<string>): seq<Effect> {
    seq(|errors|, i requires 0 <= i < |errors| => ReportError(errors[i]))
  }

  /** One run: argument guards, configuration load, project assembly, then
      (only for an assembled script) compile, connect, attach and inject with
      the MP profile. */
  function Main(args: Args, env: Environment): seq<Effect> {
    if args.api.None? then [MissingArgument(ApiArgument)]
    else if args.projectDirectory.None? then [MissingArgument(ProjectDirectoryArgument)]
    else
      Run(SelectApi(args.api.value),
          LoadConfigurationFile(env.configFile, env.defaultConfig),
          ConstructProjectScript(env.parse, env.scan(ScannedDirectory)),
          env.compile)
  }

  /** The run once both arguments are present, given the loaded configuration
      and the assembly outcome. Connect and attach results are not inspected. */
  function Run(targetApi: Api, loaded: Loaded, assembled: Assembled, compile: (string, string) -> seq<Byte>): seq<Effect> {
    var prefix := ConfigEffects(loaded) + ReadEffects(assembled.read) + ReportEffects(assembled.errors);
    match assembled.script
    case None => prefix
    case Some(script) =>
      prefix + [Compile(script, CompiledScriptPath), ConnectTarget(targetApi), AttachProcess]
        + InjectScript(loaded.config.mp, compile(script, CompiledScriptPath))
  }

  /** A missing argument ends the run with its diagnostic alone: no config
      load, no read, no compile, no remote call. `api` is checked first. With
      both present, loading the configuration comes first. */
  lemma MainArgumentGuards(args: Args, env: Environment)
    ensures args.api.None? || args.projectDirectory.None? <==>
            |Main(args, env)| == 1 && Main(args, env)[0].MissingArgument?
    ensures args.api.None? ==> Main(args, env) == [MissingArgument(ApiArgument)]
    ensures args.api.Some? && args.projectDirectory.None? ==>
            Main(args, env) == [MissingArgument(ProjectDirectoryArgument)]
    ensures args.api.Some? && args.projectDirectory.Some? ==> Main(args, env)[0] == LoadConfig
  {
  }

  /** The directory argument only has to be present: the run is the same for
      every value of it. */
  lemma MainIgnoresProjectDirectory(api: string, dir1: string, dir2: string, env: Environment)
    ensures Main(Args(Some(api), Some(dir1)), env) == Main(Args(Some(api), Some(dir2)), env)
  {
  }

  /** Without a script the run stops after the config load, the reads and
      the error reports: nothing is compiled and the console is not touched. */
  lemma RunWithoutScript(targetApi: Api, loaded: Loaded, assembled: Assembled, compile: (string, string) -> seq<Byte>)
    requires assembled.script.None?
    ensures Run(targetApi, loaded, assembled, compile) ==
              ConfigEffects(loaded) + ReadEffects(assembled.read) + ReportEffects(assembled.errors)
    ensures forall e <- Run(targetApi, loaded, assembled, compile) :: !e.IsBuildOrRemote()
  {
  }

  /** With a script the run compiles exactly that script, connects with the
      selected API, attaches, and performs the two writes of the MP profile. */
  lemma RunWithScript(targetApi: Api, loaded: Loaded, assembled: Assembled, compile: (string, string) -> seq<Byte>)
    requires assembled.script.Some? && assembled.errors == []
    ensures var script := assembled.script.value;
            Run(targetApi, loaded, assembled, compile) ==
              ConfigEffects(loaded) + ReadEffects(assembled.read)
                + [Compile(script, CompiledScriptPath), ConnectTarget(targetApi), AttachProcess]
                + InjectScript(loaded.config.mp, compile(script, CompiledScriptPath))
  {
  }

  /** The two injection writes are the only writes of a run with a script. */
  lemma RunWritesWithScript(targetApi: Api, loaded: Loaded, assembled: Assembled, compile: (string, string) -> seq<Byte>)
    requires assembled.script.Some? && assembled.errors == []
    ensures Writes(Run(targetApi, loaded, assembled, compile)) ==
              InjectScript(loaded.config.mp, compile(assembled.script.value, CompiledScriptPath))
  {
    var script := assembled.script.value;
    var prefix := ConfigEffects(loaded) + ReadEffects(assembled.read)
                  + [Compile(script, CompiledScriptPath), ConnectTarget(targetApi), AttachProcess];
    var writes := InjectScript(loaded.config.mp, compile(script, CompiledScriptPath));
    RunWithScript(targetApi, loaded, assembled, compile);
    WritesNone(prefix);
    WritesAppend(prefix, writes);
    assert Writes(writes) == writes by {
      assert writes[1..][1..] == [];
    }
  }

  /** Console memory after a run with a script: the buffer holds the compiled
      script and, when the pointer slot lies outside it, the pointer holds the
      buffer's address. */
  lemma RunInstallsScript(mem: Memory, targetApi: Api, loaded: Loaded, assembled: Assembled, compile: (string, string) -> seq<Byte>)
    requires assembled.script.Some? && assembled.errors == []
    ensures var mp := loaded.config.mp;
            var p, b := mp.defaults.pointerAddress, mp.customs.bufferAddress;
            var scriptBuffer := compile(assembled.script.value, CompiledScriptPath);
            var after := ApplyAll(mem, Run(targetApi, loaded, assembled, compile));
            && Fetch(after, b, |scriptBuffer|) == scriptBuffer
            && (p + 4 <= b || b + |scriptBuffer| <= p ==> Decode32(Fetch(after, p, 4)) == b)
  {
    var script := assembled.script.value;
    var prefix := ConfigEffects(loaded) + ReadEffects(assembled.read)
                  + [Compile(script, CompiledScriptPath), ConnectTarget(targetApi), AttachProcess];
    var writes := InjectScript(loaded.config.mp, compile(script, CompiledScriptPath));
    RunWithScript(targetApi, loaded, assembled, compile);
    ApplyAllAppend(mem, prefix, writes);
    ApplyAllNoWrites(mem, prefix);
    InjectInstallsScript(mem, loaded.config.mp, compile(script, CompiledScriptPath));
  }

  /** A syntax error in file `k` of the scan ends the run after the config
      load, the reads of files 0..k and the printing of all of file k's
      errors: nothing is compiled, connected, attached or written. */
  lemma MainAbortsOnSyntaxError(api: string, dir: string, env: Environment, k: nat)
    requires FirstFailure(env.parse, env.scan(ScannedDirectory), k)
    ensures var files := env.scan(ScannedDirectory);
            var loaded := LoadConfigurationFile(env.configFile, env.defaultConfig);
            Main(Args(Some(api), Some(dir)), env) ==
              ConfigEffects(loaded) + ReadEffects(Paths(files[..k + 1]))
                + ReportEffects(GetSyntaxErrors(env.parse(files[k].contents), files[k].path))
    ensures forall e <- Main(Args(Some(api), Some(dir)), env) :: !e.IsBuildOrRemote()
  {
    var files := env.scan(ScannedDirectory);
    var loaded := LoadConfigurationFile(env.configFile, env.defaultConfig);
    AssemblyFailFast(env.parse, files, k);
    RunWithoutScript(SelectApi(api), loaded, ConstructProjectScript(env.parse, files), env.compile);
  }

  /** A clean project is compiled as the plain concatenation of its files,
      then the console is connected with the selected API, attached, and the
      MP profile's pointer and buffer are written, in that order. */
  lemma MainSucceeds(api: string, dir: string, env: Environment)
    requires AllClean(env.parse, env.scan(ScannedDirectory))
    ensures var files := env.scan(ScannedDirectory);
            var loaded := LoadConfigurationFile(env.configFile, env.defaultConfig);
            var mp := loaded.config.mp;
            var script := Concat(files);
            Main(Args(Some(api), Some(dir)), env) ==
              ConfigEffects(loaded) + ReadEffects(Paths(files))
                + [ Compile(script, CompiledScriptPath),
                    ConnectTarget(SelectApi(api)),
                    AttachProcess,
                    WriteUInt32(mp.defaults.pointerAddress, mp.customs.bufferAddress),
                    WriteBytes(mp.customs.bufferAddress, env.compile(script, CompiledScriptPath)) ]
  {
    var files := env.scan(ScannedDirectory);
    var loaded := LoadConfigurationFile(env.configFile, env.defaultConfig);
    AssemblySuccess(env.parse, files);
    RunWithScript(SelectApi(api), loaded, ConstructProjectScript(env.parse, files), env.compile);
    assert [Compile(Concat(files), CompiledScriptPath), ConnectTarget(SelectApi(api)), AttachProcess]
             + InjectScript(loaded.config.mp, env.compile(Concat(files), CompiledScriptPath))
           == [ Compile(Concat(files), CompiledScriptPath), ConnectTarget(SelectApi(api)), AttachProcess,
                WriteUInt32(loaded.config.mp.defaults.pointerAddress, loaded.config.mp.customs.bufferAddress),
                WriteBytes(loaded.config.mp.customs.bufferAddress, env.compile(Concat(files), CompiledScriptPath)) ];
  }

  /** Every run writes to the console either nothing or exactly the two
      injection writes of the MP profile, and it writes exactly when both
      arguments are given and every scanned file parses cleanly. */
  lemma MainWrites(args: Args, env: Environment)
    ensures var files := env.scan(ScannedDirectory);
            Writes(Main(args, env)) != [] <==>
              args.api.Some? && args.projectDirectory.Some? && AllClean(env.parse, files)
    ensures var files := env.scan(ScannedDirectory);
            var mp := LoadConfigurationFile(env.configFile, env.defaultConfig).config.mp;
            Writes(Main(args, env)) != [] ==>
              Writes(Main(args, env)) == InjectScript(mp, env.compile(Concat(files), CompiledScriptPath))
  {
    var files := env.scan(ScannedDirectory);
    if args.api.Some? && args.projectDirectory.Some? {
      var loaded := LoadConfigurationFile(env.configFile, env.defaultConfig);
      var assembled := ConstructProjectScript(env.parse, files);
      AssemblySucceedsIff(env.parse, files);
      if AllClean(env.parse, files) {
        AssemblySuccess(env.parse, files);
      }
      RunWrites(SelectApi(args.api.value), loaded, assembled, env.compile);
    }
  }

  /** A run's writes: the two injection writes when there is a script, none
      otherwise. */
  lemma RunWrites(targetApi: Api, loaded: Loaded, assembled: Assembled, compile: (string, string) -> seq<Byte>)
    requires assembled.script.Some? ==> assembled.errors == []
    ensures Writes(Run(targetApi, loaded, assembled, compile)) ==
              if assembled.script.Some?
              then InjectScript(loaded.config.mp, compile(assembled.script.value, CompiledScriptPath))
              else []
  {
    if assembled.script.Some? {
      RunWritesWithScript(targetApi, loaded, assembled, compile);
    } else {
      RunWithoutScript(targetApi, loaded, assembled, compile);
      WritesNone(Run(targetApi, loaded, assembled, compile));
    }
  }

  /** End to end: after a clean run the console's buffer holds the compiled
      script and, when the pointer slot lies outside the buffer, the script
      pointer holds the buffer's address. */
  lemma MainInstallsScript(mem: Memory, api: string, dir: string, env: Environment)
    requires AllClean(env.parse, env.scan(ScannedDirectory))
    ensures var mp := LoadConfigurationFile(env.configFile, env.defaultConfig).config.mp;
            var p, b := mp.defaults.pointerAddress, mp.customs.bufferAddress;
            var scriptBuffer := env.compile(Concat(env.scan(ScannedDirectory)), CompiledScriptPath);
            var after := ApplyAll(mem, Main(Args(Some(api), Some(dir)), env));
            && Fetch(after, b, |scriptBuffer|) == scriptBuffer
            && (p + 4 <= b || b + |scriptBuffer| <= p ==> Decode32(Fetch(after, p, 4)) == b)
  {
    var files := env.scan(ScannedDirectory);
    var loaded := LoadConfigurationFile(env.configFile, env.defaultConfig);
    AssemblySuccess(env.parse, files);
    RunInstallsScript(mem, SelectApi(api), loaded, ConstructProjectScript(env.parse, files), env.compile);
  }
}
