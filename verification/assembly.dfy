/** Project assembly (Program.cs, `ConstructProjectScript`): every script
    file, in the order the directory scan lists them, is read, syntax-checked
    on its own and appended to the project script; the first file with any
    parser message aborts the whole assembly. */
module Assembly {
  import opened Wrappers
  import opened Diagnostics

  /** A scanned `.gsc` file: its path as listed and its full text. */
  datatype SourceFile = SourceFile(path: string, contents: string)

  /** The Irony parser, seen only through the messages it reports for a text. */
  type Parser = string -> seq<LogMessage>

  /** Outcome of an assembly: the project script (`None` for the source's
      `null`), the paths read and parsed, in order, and the error lines
      printed. */
  datatype Assembled = Assembled(script: Option<string>, read: seq<string>, errors: seq<string>)

  predicate Clean(parse: Parser, f: SourceFile) {
    |parse(f.contents)| == 0
  }

  predicate AllClean(parse: Parser, files: seq<SourceFile>) {
    forall i :: 0 <= i < |files| ==> Clean(parse, files[i])
  }

  /** `k` is the first file, in scan order, the parser reports anything for. */
  predicate FirstFailure(parse: Parser, files: seq<SourceFile>, k: nat) {
    && k < |files|
    && !Clean(parse, files[k])
    && forall j :: 0 <= j < k ==> Clean(parse, files[j])
  }

  /** Reference definition: the files' contents back to back, no separator. */
  function Concat(files: seq<SourceFile>): string {
    if files == [] then "" else files[0].contents + Concat(files[1..])
  }

  function Paths(files: seq<SourceFile>): seq<string> {
    seq(|files|, i requires 0 <= i < |files| => files[i].path)
  }

  /** The source's loop, with `acc` the script built so far. */
  function Fold(parse: Parser, files: seq<SourceFile>, acc: string): Assembled
    decreases |files|
  {
    if files == [] then Assembled(Some(acc), [], [])
    else
      var f := files[0];
      var printout := PrintSyntaxErrors(parse(f.contents), f.path);
      if printout.hasErrors then Assembled(None, [f.path], printout.printed)
      else
        var rest := Fold(parse, files[1..], acc + f.contents);
        rest.(read := [f.path] + rest.read)
  }

  /** The project script of the scanned files; the script starts empty. */
  function ConstructProjectScript(parse: Parser, files: seq<SourceFile>): Assembled {
    Fold(parse, files, "")
  }

  lemma {:induction false} FoldSuccess(parse: Parser, files: seq<SourceFile>, acc: string)
    requires AllClean(parse, files)
    ensures Fold(parse, files, acc) == Assembled(Some(acc + Concat(files)), Paths(files), [])
    decreases |files|
  {
    if files == [] {
      assert acc + Concat(files) == acc;
    } else {
      assert Clean(parse, files[0]);
      FoldContinues(parse, files, acc);
      assert AllClean(parse, files[1..]) by {
        forall i | 0 <= i < |files[1..]| ensures Clean(parse, files[1..][i]) {
          assert files[1..][i] == files[i + 1];
        }
      }
      FoldSuccess(parse, files[1..], acc + files[0].contents);
      assert acc + files[0].contents + Concat(files[1..]) == acc + Concat(files);
      assert Paths(files) == [files[0].path] + Paths(files[1..]);
    }
  }

  /** A failing first file stops the fold with that file's error lines. */
  lemma FoldStops(parse: Parser, files: seq<SourceFile>, acc: string)
    requires |files| > 0 && !Clean(parse, files[0])
    ensures Fold(parse, files, acc) == Assembled(None, [files[0].path], GetSyntaxErrors(parse(files[0].contents), files[0].path))
  {
  }

  /** A clean first file is appended and the fold goes on with the rest. */
  lemma FoldContinues(parse: Parser, files: seq<SourceFile>, acc: string)
    requires |files| > 0 && Clean(parse, files[0])
    ensures var rest := Fold(parse, files[1..], acc + files[0].contents);
            Fold(parse, files, acc) == rest.(read := [files[0].path] + rest.read)
  {
  }

  lemma {:induction false} FoldFailure(parse: Parser, files: seq<SourceFile>, acc: string, k: nat)
    requires FirstFailure(parse, files, k)
    ensures Fold(parse, files, acc) == Assembled(None, Paths(files[..k + 1]), GetSyntaxErrors(parse(files[k].contents), files[k].path))
    decreases |files|
  {
    if k == 0 {
      FoldStops(parse, files, acc);
      assert files[..1] == [files[0]];
    } else {
      assert Clean(parse, files[0]);
      FoldContinues(parse, files, acc);
      assert FirstFailure(parse, files[1..], k - 1) by {
        forall j | 0 <= j < k - 1 ensures Clean(parse, files[1..][j]) {
          assert files[1..][j] == files[j + 1];
        }
      }
      FoldFailure(parse, files[1..], acc + files[0].contents, k - 1);
      assert files[..k + 1][1..] == files[1..][..k];
      assert files[1..][k - 1] == files[k];
      assert Paths(files[..k + 1]) == [files[0].path] + Paths(files[1..][..k]);
    }
  }

  /** Assembly yields a script exactly when no file draws a parser message. */
  lemma AssemblySucceedsIff(parse: Parser, files: seq<SourceFile>)
    ensures ConstructProjectScript(parse, files).script.Some? <==> AllClean(parse, files)
  {
    if AllClean(parse, files) {
      FoldSuccess(parse, files, "");
    } else {
      var k := FirstFailureExists(parse, files);
      FoldFailure(parse, files, "", k);
    }
  }

  /** On success the script is every file's contents, in scan order, with no
      separator, and every file was read; an empty scan gives "". */
  lemma AssemblySuccess(parse: Parser, files: seq<SourceFile>)
    requires AllClean(parse, files)
    ensures ConstructProjectScript(parse, files) == Assembled(Some(Concat(files)), Paths(files), [])
  {
    FoldSuccess(parse, files, "");
    assert "" + Concat(files) == Concat(files);
  }

  /** Fail-fast: the first failing file ends the assembly with no script;
      the files after it are never read or parsed, and all of its messages
      (not only the first) are printed. */
  lemma AssemblyFailFast(parse: Parser, files: seq<SourceFile>, k: nat)
    requires FirstFailure(parse, files, k)
    ensures ConstructProjectScript(parse, files).script == None
    ensures ConstructProjectScript(parse, files).read == Paths(files[..k + 1])
    ensures ConstructProjectScript(parse, files).errors == GetSyntaxErrors(parse(files[k].contents), files[k].path)
  {
    FoldFailure(parse, files, "", k);
  }

  /** Some file fails exactly when not all are clean, and it is unique. */
  lemma {:induction false} FirstFailureExists(parse: Parser, files: seq<SourceFile>) returns (k: nat)
    requires !AllClean(parse, files)
    ensures FirstFailure(parse, files, k)
    ensures forall k' :: FirstFailure(parse, files, k') ==> k' == k
    decreases |files|
  {
    if !Clean(parse, files[0]) {
      k := 0;
    } else {
      assert !AllClean(parse, files[1..]) by {
        var i :| 0 <= i < |files| && !Clean(parse, files[i]);
        assert files[1..][i - 1] == files[i];
      }
      var k1 := FirstFailureExists(parse, files[1..]);
      k := k1 + 1;
      forall j | 0 <= j < k ensures Clean(parse, files[j]) {
        if j > 0 { assert files[j] == files[1..][j - 1]; }
      }
      assert files[k] == files[1..][k1];
    }
  }

  lemma {:induction false} ConcatAppend(a: seq<SourceFile>, b: seq<SourceFile>)
    ensures Concat(a + b) == Concat(a) + Concat(b)
    decreases |a|
  {
    if a != [] {
      assert (a + b)[1..] == a[1..] + b;
      ConcatAppend(a[1..], b);
    } else {
      assert a + b == b;
    }
  }

  /** In-order concatenation: file `i`'s contents sit in the script right
      after the contents of files `0..i-1`, unchanged. */
  lemma ConcatPlacesFile(files: seq<SourceFile>, i: nat)
    requires i < |files|
    ensures |Concat(files[..i])| + |files[i].contents| <= |Concat(files)|
    ensures Concat(files)[|Concat(files[..i])|..|Concat(files[..i])| + |files[i].contents|] == files[i].contents
  {
    assert files == files[..i] + files[i..];
    ConcatAppend(files[..i], files[i..]);
    assert Concat(files[i..]) == files[i].contents + Concat(files[i + 1..]) by {
      assert files[i..][1..] == files[i + 1..];
    }
  }
}
