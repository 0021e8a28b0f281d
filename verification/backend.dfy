/** Backend selection: the `switch(api)` of Program.cs, written as the table
    of case sections it is, with C# switch semantics (ordinal, case-sensitive
    label match; the `default` section when no label matches). */
module Backend {
  import opened Wrappers

  /** The two PS3Lib transports. */
  datatype Api = TargetManager | ControlConsole

  /** One switch section: its case labels, whether it also carries
      `default:`, and the API it assigns. */
  datatype Section = Section(labels: seq<string>, isDefault: bool, target: Api)

  /** The switch of Program.cs: `default`, "tm", "tmapi" and "TMAPI" share
      the first section; "cc", "ccapi" and "CCAPI" form the second. */
  const ApiSwitch: seq<Section> := [
    Section(["tm", "tmapi", "TMAPI"], true, TargetManager),
    Section(["cc", "ccapi", "CCAPI"], false, ControlConsole)
  ]

  /** The section whose labels contain `token`, if any. */
  function MatchLabel(sections: seq<Section>, token: string): (r: Option<Api>)
    ensures r.Some? <==> exists i, j :: 0 <= i < |sections| && 0 <= j < |sections[i].labels| && sections[i].labels[j] == token
    ensures r.Some? ==> exists i, j :: 0 <= i < |sections| && 0 <= j < |sections[i].labels| && sections[i].labels[j] == token && sections[i].target == r.value
  {
    if sections == [] then None
    else if token in sections[0].labels then Some(sections[0].target)
    else
      var r := MatchLabel(sections[1..], token);
      assert forall i, j :: 1 <= i < |sections| && 0 <= j < |sections[i].labels| ==> sections[i].labels[j] == sections[1..][i - 1].labels[j];
      r
  }

  /** The section marked `default`, if any. */
  function DefaultTarget(sections: seq<Section>): (r: Option<Api>)
    ensures r.Some? <==> exists i :: 0 <= i < |sections| && sections[i].isDefault
  {
    if sections == [] then None
    else if sections[0].isDefault then Some(sections[0].target)
    else
      var r := DefaultTarget(sections[1..]);
      assert forall i :: 1 <= i < |sections| ==> sections[i] == sections[1..][i - 1];
      r
  }

  /** A switch statement: the matching section, else the default one. */
  function Dispatch(sections: seq<Section>, token: string): Option<Api> {
    match MatchLabel(sections, token)
    case Some(api) => Some(api)
    case None => DefaultTarget(sections)
  }

  /** The API the tool connects with for the command-line token `api`. */
  function SelectApi(api: string): Api {
    assert ApiSwitch[0].isDefault;
    Dispatch(ApiSwitch, api).value
  }

  /** Selection is total and case-sensitive: exactly the three
      control-console spellings select ControlConsole; every other string,
      the target-manager tokens and every other capitalisation included,
      selects TargetManager. */
  lemma SelectApiSpec(api: string)
    ensures SelectApi(api) == ControlConsole <==> api == "cc" || api == "ccapi" || api == "CCAPI"
    ensures SelectApi(api) == TargetManager <==> !(api == "cc" || api == "ccapi" || api == "CCAPI")
  {
  }

  /** Examples of the case-sensitive match: other capitalisations of the
      control-console tokens fall through to the default. */
  lemma SelectApiExamples()
    ensures SelectApi("ccapi") == ControlConsole && SelectApi("CCAPI") == ControlConsole
    ensures SelectApi("Ccapi") == TargetManager && SelectApi("CC") == TargetManager
    ensures SelectApi("tmapi") == TargetManager && SelectApi("") == TargetManager
  {
    SelectApiSpec("ccapi");
    SelectApiSpec("CCAPI");
    SelectApiSpec("Ccapi");
    SelectApiSpec("CC");
    SelectApiSpec("tmapi");
    SelectApiSpec("");
  }
}
