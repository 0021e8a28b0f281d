/** The configuration (Program.cs, `LoadConfigurationFile`): per gametype, the
    address of the script pointer and the address of the buffer the compiled
    script is written to. */
module Config {
  import opened Words

  datatype Defaults = Defaults(pointerAddress: UInt32)
  datatype Customs = Customs(bufferAddress: UInt32)

  /** One gametype profile. */
  datatype Gametype = Gametype(defaults: Defaults, customs: Customs)

  /** Profiles for multiplayer (`MP`) and zombies (`ZM`). */
  datatype Configuration = Configuration(mp: Gametype, zm: Gametype)

  /** What config.json holds as far as the loader can tell: a configuration
      it deserialises, or text it cannot read or parse (a missing file
      included). */
  datatype ConfigFile = Unreadable | Stored(config: Configuration)

  /** The loaded configuration, whether the catch branch regenerated it, and
      config.json afterwards. */
  datatype Loaded = Loaded(config: Configuration, regenerated: bool, file: ConfigFile)

  /** Loads config.json; on any failure uses `defaults` (the generated MP and
      ZM settings) and writes them to config.json. The load never fails. */
  function LoadConfigurationFile(file: ConfigFile, defaults: Configuration): (r: Loaded)
    ensures r.file == Stored(r.config)
    ensures r.regenerated <==> file.Unreadable?
    ensures file.Stored? ==> r.config == file.config
    ensures file.Unreadable? ==> r.config == defaults
  {
    match file
    case Stored(c) => Loaded(c, false, file)
    case Unreadable => Loaded(defaults, true, Stored(defaults))
  }

  /** Loading a second time, from whatever the first load left on disk, gives
      the same configuration and writes nothing. */
  lemma LoadIdempotent(file: ConfigFile, defaults: Configuration)
    ensures var first := LoadConfigurationFile(file, defaults);
            LoadConfigurationFile(first.file, defaults) == Loaded(first.config, false, first.file)
  {
  }
}
