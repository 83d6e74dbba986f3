/**
 * The formatter object and dumpBindingsToFile: which maps are printed, in
 * which order, and under which file names. Writing the files and logging are
 * left to the caller: a dump is the list of (file name, contents) pairs the
 * formatter would write, in order.
 */
module Dump {
  import opened Wrappers
  import opened KbaModel
  import opened Printout
  import opened PrintoutProperties
  import opened Transform

  /** The two kinds of bindings; their names are the enum constants'. */
  datatype BindingType = User | System

  function TypeName(t: BindingType): string {
    match t
    case User => "USER"
    case System => "SYSTEM"
  }

  /** The name of the temporary file a binding type is dumped to. */
  function FileName(t: BindingType): (r: string)
    ensures |r| > 12 && r[..8] == "CURRENT-" && r[|r| - 4..] == ".kbd"
  {
    "CURRENT-" + TypeName(t) + ".kbd"
  }

  /** The two binding types are dumped to two different files. */
  lemma FileNameInjective(s: BindingType, t: BindingType)
    ensures FileName(s) == FileName(t) <==> s == t
  {
    if s != t {
      assert FileName(s)[8] != FileName(t)[8];
    }
  }

  /** The debug switch: the system property is set to exactly "true"; unset reads as "false". */
  function DebugFlag(property: Option<string>): bool {
    property.GetOr("false") == "true"
  }

  lemma DebugFlagIff(property: Option<string>)
    ensures DebugFlag(property) <==> property == Some("true")
  {
  }

  /** The formatter's state: the debug switch and the two change-set hash maps. */
  datatype Formatter = Formatter(
    debugDumpSystemBindings: bool,
    userBindingsMap: map<Qualifier, ChangeSet>,
    systemBindingsMap: map<Qualifier, ChangeSet>)

  /**
   * The constructor taking the captured multimaps: both are transformed,
   * the user bindings first; either failure is the constructor's.
   */
  function NewFormatter(debugProperty: Option<string>, user: Captured, system: Captured): (r: Result<Formatter, TransformError>)
    ensures r.Ok? <==> Transformed(user).Ok? && Transformed(system).Ok?
    ensures r.Ok? ==> r.value == Formatter(DebugFlag(debugProperty), Transformed(user).value, Transformed(system).value)
  {
    match Transformed(user)
    case Err(e) => Err(e)
    case Ok(u) =>
      match Transformed(system)
      case Err(e) => Err(e)
      case Ok(s) => Ok(Formatter(DebugFlag(debugProperty), u, s))
  }

  /** The binding types dumpBindingsToFile prints, in order. */
  function DumpOrder(debug: bool): seq<BindingType> {
    if debug then [System, User] else [User]
  }

  /** The user bindings are always dumped, and last; the system bindings first, and only when debugging. */
  lemma DumpOrderSpec(debug: bool)
    ensures |DumpOrder(debug)| > 0 && DumpOrder(debug)[|DumpOrder(debug)| - 1] == User
    ensures System in DumpOrder(debug) <==> debug
    ensures debug ==> DumpOrder(debug)[0] == System
    ensures forall i, j :: 0 <= i < j < |DumpOrder(debug)| ==> FileName(DumpOrder(debug)[i]) != FileName(DumpOrder(debug)[j])
  {
    FileNameInjective(System, User);
  }

  /**
   * dumpBindingsToFile(): each dumped type's file holds the printout of that
   * type's map. The maps' iteration orders are given as entry lists.
   */
  method DumpBindingsToFile(f: Formatter, userEntries: ChangeSetMap, systemEntries: ChangeSetMap)
    returns (files: seq<(string, string)>)
    requires Enumerates(userEntries, f.userBindingsMap)
    requires Enumerates(systemEntries, f.systemBindingsMap)
    ensures |files| == |DumpOrder(f.debugDumpSystemBindings)|
    ensures forall i :: 0 <= i < |files| ==>
      var t := DumpOrder(f.debugDumpSystemBindings)[i];
      files[i] == (FileName(t), Document(if t == User then userEntries else systemEntries))
  {
    var written: seq<(string, string)> := [];
    if f.debugDumpSystemBindings {
      var output := GetBindingsPrintout(systemEntries);
      written := [(FileName(System), output)];
    }
    var output := GetBindingsPrintout(userEntries);
    files := written + [(FileName(User), output)];
    DumpedFiles(f.debugDumpSystemBindings, written, files, Document(userEntries), Document(systemEntries));
  }

  lemma DumpedFiles(debug: bool, written: seq<(string, string)>, files: seq<(string, string)>, user: string, system: string)
    requires written == if debug then [(FileName(System), system)] else []
    requires files == written + [(FileName(User), user)]
    ensures |files| == |DumpOrder(debug)|
    ensures forall i :: 0 <= i < |files| ==>
      var t := DumpOrder(debug)[i];
      files[i] == (FileName(t), if t == User then user else system)
  {
  }

  /**
   * The printout of a transformed capture opens and closes one block per
   * captured qualifier, whatever order the hash map iterates in.
   */
  lemma TransformedDocumentBlocks(orig: Captured, m: ChangeSetMap)
    requires Transformed(orig).Ok?
    requires Enumerates(m, Transformed(orig).value)
    ensures CountOf(DocLines(m), BLOCK_OPEN) == |orig|
    ensures CountOf(DocLines(m), BLOCK_CLOSE) == |orig|
  {
    EnumerationLength(m, Transformed(orig).value);
    TransformedKeys(orig);
    assert |Transformed(orig).value| == |Transformed(orig).value.Keys| == |orig.Keys|;
    DocumentBlockCount(m);
  }
}
