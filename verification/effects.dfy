/** The observable effects of one run of the injector, in the order they
    happen: console diagnostics that matter, configuration I/O, source reads,
    the compile, and the PS3Lib calls. */
module Effects {
  import opened Words
  import opened Config
  import opened Backend

  datatype Argument = ApiArgument | ProjectDirectoryArgument

  datatype Effect =
    | MissingArgument(argument: Argument)
    | LoadConfig
    | WriteConfig(config: Configuration)
    | ReadSource(path: string)
    | ReportError(message: string)
    | Compile(source: string, destination: string)
    | ConnectTarget(api: Api)
    | AttachProcess
    | WriteUInt32(address: UInt32, value: UInt32)
    | WriteBytes(address: UInt32, bytes: seq<Byte>)
  {
    predicate IsWrite() {
      WriteUInt32? || WriteBytes?
    }

    /** The compile and every call that reaches the console. */
    predicate IsBuildOrRemote() {
      Compile? || ConnectTarget? || AttachProcess? || IsWrite()
    }
  }

  /** The remote writes of a trace, in order. */
  function Writes(trace: seq<Effect>): (ws: seq<Effect>)
    ensures forall i :: 0 <= i < |ws| ==> ws[i].IsWrite()
    ensures |ws| <= |trace|
  {
    if trace == [] then []
    else if trace[0].IsWrite() then [trace[0]] + Writes(trace[1..])
    else Writes(trace[1..])
  }

  lemma {:induction false} WritesAppend(a: seq<Effect>, b: seq<Effect>)
    ensures Writes(a + b) == Writes(a) + Writes(b)
    decreases |a|
  {
    if a == [] {
      assert a + b == b;
    } else {
      assert (a + b)[1..] == a[1..] + b;
      WritesAppend(a[1..], b);
    }
  }

  /** A trace with no write has no write to filter out. */
  lemma {:induction false} WritesNone(trace: seq<Effect>)
    requires forall i :: 0 <= i < |trace| ==> !trace[i].IsWrite()
    ensures Writes(trace) == []
    decreases |trace|
  {
    if trace != [] {
      WritesNone(trace[1..]);
    }
  }
}
