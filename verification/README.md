# BO2 GSC injector — Dafny model of the orchestration in Program.cs

The injector takes a folder of GSC scripts for Black Ops II. It checks each file's syntax and joins the files into one project script. It then compiles that script and writes the bytecode into a running PS3 game. A pointer slot is repointed at a custom buffer, and the buffer receives the script. This project models the C# entry point `Program.cs` and proves properties of that model. Everything the entry point calls is a parameter:

- the directory scan and file reads, as `scan: string -> seq<SourceFile>`;
- the Irony parser, as `parse: string -> seq<LogMessage>`;
- the BO2 GSC compiler, as `compile: (string, string) -> seq<Byte>`;
- `config.json`, as `ConfigFile`;
- the generated default settings, as `defaultConfig`.

A run is a pure function `Program.Main(args, env)` that returns the trace of its effects, in order:

1. the missing-argument diagnostics;
2. the config load and its possible rewrite;
3. each source file read;
4. each syntax-error line printed;
5. the compile;
6. connect and attach;
7. the two remote writes.

Files, one module each:

- `wrappers.dfy`: `Option`, which models the source's `null`.
- `words.dfy`: C# `byte` and `uint`.
- `numerals.dfy`: `int.ToString()` and a parser that reads the result back.
- `diagnostics.dfy`: the error-line format, `GetSyntaxErrors` and `PrintSyntaxErrors`.
- `backend.dfy`: the `switch(api)`, written as a table of case sections.
- `assembly.dfy`: `ConstructProjectScript`, modelled as a fail-fast fold.
- `config.dfy`: the configuration and `LoadConfigurationFile`.
- `effects.dfy`: the trace events.
- `injection.dfy`: `InjectScript` and a byte-addressed memory model for what its writes do.
- `program.dfy`: `Main`.

The model follows the code as written:

- The directory argument is only checked for presence. The fixed directory `test-project` is always scanned (`Program.MainIgnoresProjectDirectory`).
- No entry file is moved to the front. Files are joined in scan order.
- No separator is inserted between files.
- Every message of the failing file is printed, not only the first.
- API tokens are matched exactly, with case. `"Ccapi"` selects TargetManager.
- The results of connect and attach are not checked.
- The `MP` profile is always used for the injection.
- The code has no entry-file check and never tests whether connect or attach succeeded (Program.cs:58-59), so neither is modelled.

## Model

| member | source | states |
|---|---|---|
| Backend.SelectApiSpec | Program.cs:43-55 | every string selects exactly one API; ControlConsole exactly for "cc", "ccapi", "CCAPI" (case-sensitive), TargetManager for every other string, including "tm"/"tmapi"/"TMAPI" |
| Backend.SelectApiExamples | Program.cs:43-55 | other capitalisations such as "Ccapi" and "CC", and the empty string, fall to the TargetManager default |
| Numerals.NatToStringRoundTrip | Program.cs:118 | the decimal rendering of a line number reads back as that number |
| Numerals.IntToStringRoundTrip | Program.cs:118 | `int.ToString()` (minus sign for negatives) reads back as the same integer |
| Diagnostics.ParseFormatError | Program.cs:118 | each error line can be decoded back into exactly the line number and script name it was formatted from |
| Diagnostics.GetSyntaxErrorsSpec | Program.cs:115-123 | one error line per parser message, in message order, each embedding that message's line number and the script name |
| Diagnostics.PrintSyntaxErrors | Program.cs:102-113 | reports errors exactly when the parser produced at least one message |
| Diagnostics.PrintSyntaxErrorsSpec | Program.cs:102-113 | all error lines of the script are printed, one per message and in order, not only the first |
| Assembly.FoldSuccess | Program.cs:71-81 | when every remaining file is clean, the loop appends all their contents, in order, to the script built so far and reads every file |
| Assembly.FoldFailure | Program.cs:71-81 | when file k is the first with messages, the loop returns no script, having read exactly files 0..k and printed file k's errors |
| Assembly.AssemblySucceedsIff | Program.cs:67-84 | a project script is produced if and only if no scanned file draws a parser message |
| Assembly.AssemblySuccess | Program.cs:67-84 | on success the script is the contents of all files in scan order with no separator, every file was read and no error line was printed; an empty scan gives "" |
| Assembly.AssemblyFailFast | Program.cs:71-78 | the first failing file yields `null`; only files up to and including it are read and parsed; all of its error lines are printed |
| Assembly.FirstFailureExists | Program.cs:71-78 | if some file draws a message, there is exactly one first such file in scan order |
| Assembly.ConcatPlacesFile | Program.cs:79 | in the joined script each file's contents appear unchanged, right after the contents of all earlier files |
| Config.LoadConfigurationFile | Program.cs:86-100 | loading never fails; the configuration returned is the one config.json holds afterwards; it is the stored one when readable, otherwise the defaults, which are then written |
| Config.LoadIdempotent | Program.cs:86-100 | a second load from what the first left on disk gives the same configuration and writes nothing |
| Injection.Encode32RoundTrip | Program.cs:126 | the four bytes written for a 32-bit value decode back to that value |
| Injection.InjectInstallsScript | Program.cs:125-128 | after the two writes the buffer holds the script; if the pointer slot is outside the buffer it holds the buffer address; no other byte changes |
| Program.MainArgumentGuards | Program.cs:13-23 | a missing `api` or directory ends the run with its one diagnostic and no other effect, `api` is checked first, and otherwise the config load comes first |
| Program.MainIgnoresProjectDirectory | Program.cs:30 | the run is identical for every directory argument value, because `test-project` is always scanned |
| Program.RunWithoutScript | Program.cs:30-33 | with no project script, the run ends after the config load, the reads and the error lines: no compile, connect, attach or write |
| Program.RunWritesWithScript | Program.cs:57-63 | with a script, the run's only remote writes are the two injection writes of the MP profile |
| Program.RunWrites | Program.cs:30-63 | a run writes the two injection writes exactly when it has a script, and nothing otherwise |
| Program.MainAbortsOnSyntaxError | Program.cs:23-33 | if file k is the first with a syntax error, the trace is the config load, the reads of files 0..k and file k's error lines; nothing is compiled, connected, attached or written |
| Program.MainSucceeds | Program.cs:23-63 | for a clean project the trace is: the config load, all reads, the compile of the plain concatenation to `maps/mp/gametypes/_clientids.gsc`, connect with the selected API, attach, then a UInt32 write of MP's buffer address at MP's pointer address and the whole buffer at the buffer address |
| Program.MainWrites | Program.cs:12-65 | a run writes to the console if and only if both arguments are given and every file is clean; its writes are then exactly the two MP injection writes |
| Program.MainInstallsScript | Program.cs:57-63 | after a clean run the console buffer holds the compiled script; if the pointer slot is outside the buffer, the script pointer holds the buffer address |

## Left out

- The filesystem scan and reads (`Directory.GetFiles`, `File.ReadAllText`) are not modelled. The scan is the `scan` parameter applied to `test-project`, because its order is set by the OS. Read failures throw and crash the process, and that is not modelled. Neither is the `DirectoryNotFoundException` that `Directory.GetFiles` (Program.cs:69) throws when `test-project` is missing, which is the usual case since the directory argument is ignored (Program.cs:68); `Program.MainWrites` and the other run lemmas therefore describe runs whose scan succeeds.
- The Irony grammar and parser are represented only by the messages they report for a text. Messages carry a line and a text, and only the line is used.
- The second, whole-program parse at line 37 and the compiler are merged into the `compile` parameter. The compiler's output is opaque, and compiler exceptions, which `Main` does not catch, are not modelled.
- PS3Lib: `GetConsoleName` and the console output it feeds are left out. Exceptions thrown by connect, attach or the writes are also left out.
- Injection.Encode32: assumes PS3Lib stores a `uint` big-endian, the PS3's native byte order, because PS3Lib is not part of this model. The trace events themselves do not depend on this.
- The memory model does not cap addresses at 32 bits. A buffer that runs past 0xFFFFFFFF is not wrapped.
- Config.LoadConfigurationFile: JSON text and Newtonsoft are reduced to "a configuration it can read, or not". The model assumes serialising and reloading the defaults gives back the same values. A file that deserialises to `null` (such as empty text) is not modelled. In the source that would fail only later, at `config.MP`. The default addresses are not shown in the source, so they are a parameter. A failed rewrite of config.json is not modelled either.
- The `ZM` profile is loaded but never used by the code, so it only appears in the data model.
- Console messages other than the syntax-error lines and the two missing-argument diagnostics are left out, for example "No syntax errors in …" and "Script injected … bytes."
- Process exit codes are not modelled, because the code sets none.
