/**
 * getBindingsPrintout and the per-binding formatters: a change-set map
 * rendered as a single-quoted, JSON-shaped document with a fixed layout.
 *
 * The document is specified as its sequence of lines (DocLines), joined by
 * newlines (Printout); GetBindingsPrintout builds the same text by appending
 * to one buffer, as the source does with its StringBuilder.
 */
module Printout {
  import opened Wrappers
  import opened KbaModel
  import opened FormatHelpers
  import opened UrlEncoding

  /** Joiner.on(sep).join(items). */
  function Join(sep: string, items: seq<string>): string
    decreases |items|
  {
    if |items| == 0 then ""
    else if |items| == 1 then items[0]
    else items[0] + sep + Join(sep, items[1..])
  }

  /** Every line followed by a newline. */
  function Terminated(lines: seq<string>): string
    decreases |lines|
  {
    if lines == [] then "" else lines[0] + "\n" + Terminated(lines[1..])
  }

  /** Every key and value of a parameter map passed through urlEncoded. */
  function EncodePairs(ps: ParameterMap): ParameterMap {
    if ps == [] then [] else [(UrlEncode(ps[0].0), UrlEncode(ps[0].1))] + EncodePairs(ps[1..])
  }

  /** kv applied to every entry of a map. */
  function KvEntries(ps: ParameterMap): seq<string> {
    if ps == [] then [] else [Kv(ps[0].0, ps[0].1)] + KvEntries(ps[1..])
  }

  /** formatParameters: the encoded entries in key-set order, joined by ", ", in braces. */
  function FormatParameters(ps: ParameterMap): string {
    "{" + Join(", ", KvEntries(EncodePairs(ps))) + "}"
  }

  /** formatCommand: the command id, then the parameters when there are any. */
  function FormatCommand(b: KbaBinding): string {
    Kv(COMMAND_JSON_KEY, b.cid)
      + if |b.parameters| > 0 then ", " + Kd(COMMAND_PARAMETERS_JSON_KEY, FormatParameters(b.parameters)) else ""
  }

  /** The line formatKbaBinding writes for one binding, without its newline. */
  function BindingLine(b: KbaBinding): string {
    Indent(3) + "{" + Kvcs(KEYS_JSON_KEY, b.keySequence) + FormatCommand(b) + "},"
  }

  /** formatKbaBinding. */
  function FormatKbaBinding(b: KbaBinding): string {
    BindingLine(b) + "\n"
  }

  const DESCRIPTION_PLACEHOLDER: string := "Put a long description here"
  const LASTMOD: string := "LASTMOD"

  function HeaderLines(): seq<string> {
    [ "{",
      Indent(1) + Quote(METADATA_JSON_KEY) + " : {",
      Indent(2) + Kv(DESCRIPTION_JSON_KEY, DESCRIPTION_PLACEHOLDER) + ",",
      Indent(2) + Kv(TYPE_JSON_KEY, LASTMOD),
      Indent(1) + "},",
      Indent(1) + Quote(CHANGE_SETS_JSON_KEY) + " : [" ]
  }

  /** A field line of a block: a key and quoted value at indentation 2, with a trailing comma. */
  function FieldLine(key: string, value: string): string {
    Indent(2) + Kv(key, value) + ","
  }

  /** The platform line, present only for a qualifier with a platform. */
  function PlatformLines(platform: Option<string>): seq<string> {
    match platform
    case None => []
    case Some(p) => [FieldLine(PLATFORM_JSON_KEY, p)]
  }

  /** The lines of a change-set block before its bindings. */
  function BlockHeadLines(q: Qualifier): seq<string> {
    [Indent(2) + "{", FieldLine(SCHEME_JSON_KEY, q.scheme)]
      + PlatformLines(q.platform)
      + [ FieldLine(CONTEXT_JSON_KEY, q.context),
          FieldLine(ACTION_JSON_KEY, ADD_JSON_KEY),
          Indent(2) + Quote(BINDINGS_JSON_KEY) + " : [" ]
  }

  /** One line per binding, in binding-list order. */
  function BindingLines(bs: seq<KbaBinding>): seq<string>
    decreases |bs|
  {
    if bs == [] then [] else BindingLines(bs[..|bs| - 1]) + [BindingLine(bs[|bs| - 1])]
  }

  function BlockTailLines(): seq<string> {
    [Indent(3) + "]", Indent(2) + "},"]
  }

  /** The block of one qualifier; the scheme, platform and context come from the qualifier. */
  function BlockLines(q: Qualifier, cs: ChangeSet): seq<string> {
    BlockHeadLines(q) + BindingLines(cs.bindings) + BlockTailLines()
  }

  /** One block per entry, in the map's iteration order. */
  function BlocksLines(m: ChangeSetMap): seq<string>
    decreases |m|
  {
    if m == [] then [] else BlocksLines(m[..|m| - 1]) + BlockLines(m[|m| - 1].0, m[|m| - 1].1)
  }

  function FooterLines(): seq<string> {
    [Indent(1) + "]", "}"]
  }

  function DocLines(m: ChangeSetMap): seq<string> {
    HeaderLines() + BlocksLines(m) + FooterLines()
  }

  /** The document: its lines joined by newlines; the closing brace has none after it. */
  function Document(m: ChangeSetMap): string {
    Join("\n", DocLines(m))
  }

  lemma {:induction false} TerminatedAppend(a: seq<string>, b: seq<string>)
    ensures Terminated(a + b) == Terminated(a) + Terminated(b)
    decreases |a|
  {
    if a != [] {
      assert (a + b)[1..] == a[1..] + b;
      TerminatedAppend(a[1..], b);
    } else {
      assert a + b == b;
    }
  }

  lemma TerminatedSnoc(a: seq<string>, line: string)
    ensures Terminated(a + [line]) == Terminated(a) + line + "\n"
  {
    TerminatedAppend(a, [line]);
  }

  lemma {:induction false} JoinSnoc(a: seq<string>, last: string)
    ensures Join("\n", a + [last]) == Terminated(a) + last
    decreases |a|
  {
    if a != [] {
      assert (a + [last])[1..] == a[1..] + [last];
      JoinSnoc(a[1..], last);
    }
  }

  // What the builder of getBindingsPrintout holds after each stage, written
  // with the same appends in the same order as the source.

  ghost function HeaderText(): string {
    "{\n"
      + Indent(1) + Quote(METADATA_JSON_KEY) + " : {\n"
      + Indent(2) + Kvcn(DESCRIPTION_JSON_KEY, DESCRIPTION_PLACEHOLDER)
      + Indent(2) + Kvn(TYPE_JSON_KEY, LASTMOD)
      + Indent(1) + "},\n"
      + Indent(1) + Quote(CHANGE_SETS_JSON_KEY) + " : [\n"
  }

  ghost function WithBlockHead(acc: string, q: Qualifier): string {
    var withScheme := acc + Indent(2) + "{\n" + Indent(2) + Kvcn(SCHEME_JSON_KEY, q.scheme);
    var withPlatform :=
      if q.platform.Some? then withScheme + Indent(2) + Kvcn(PLATFORM_JSON_KEY, q.platform.value)
      else withScheme;
    withPlatform
      + Indent(2) + Kvcn(CONTEXT_JSON_KEY, q.context)
      + Indent(2) + Kvcn(ACTION_JSON_KEY, ADD_JSON_KEY)
      + Indent(2) + Quote(BINDINGS_JSON_KEY) + " : [\n"
  }

  ghost function WithBindings(acc: string, bs: seq<KbaBinding>): string
    decreases |bs|
  {
    if bs == [] then acc else WithBindings(acc, bs[..|bs| - 1]) + FormatKbaBinding(bs[|bs| - 1])
  }

  ghost function WithBlock(acc: string, q: Qualifier, cs: ChangeSet): string {
    WithBindings(WithBlockHead(acc, q), cs.bindings) + Indent(3) + "]\n" + Indent(2) + "},\n"
  }

  ghost function WithBlocks(acc: string, m: ChangeSetMap): string
    decreases |m|
  {
    if m == [] then acc else WithBlock(WithBlocks(acc, m[..|m| - 1]), m[|m| - 1].0, m[|m| - 1].1)
  }

  ghost function BuiltText(m: ChangeSetMap): string {
    WithBlocks(HeaderText(), m) + Indent(1) + "]\n" + "}"
  }

  /** The inner loop of getBindingsPrintout: formatKbaBinding appended for every binding of one change-set. */
  method AppendBindings(head: string, bs: seq<KbaBinding>) returns (output: string)
    ensures output == WithBindings(head, bs)
  {
    output := head;
    var j := 0;
    while j < |bs|
      invariant 0 <= j <= |bs|
      invariant output == WithBindings(head, bs[..j])
    {
      WithBindingsSnoc(head, bs, j);
      output := output + FormatKbaBinding(bs[j]);
      j := j + 1;
    }
    assert bs[..j] == bs;
  }

  lemma WithBindingsSnoc(acc: string, bs: seq<KbaBinding>, j: nat)
    requires j < |bs|
    ensures WithBindings(acc, bs[..j + 1]) == WithBindings(acc, bs[..j]) + FormatKbaBinding(bs[j])
  {
    assert bs[..j + 1][..j] == bs[..j];
  }

  lemma WithBlocksSnoc(acc: string, m: ChangeSetMap, n: nat)
    requires n < |m|
    ensures WithBlocks(acc, m[..n + 1]) == WithBlock(WithBlocks(acc, m[..n]), m[n].0, m[n].1)
  {
    assert m[..n + 1][..n] == m[..n];
  }

  /** getBindingsPrintout. */
  method GetBindingsPrintout(bindings: ChangeSetMap) returns (output: string)
    ensures output == Document(bindings)
  {
    var i1 := I(1);
    var i2 := I(2);
    var i3 := I(3);
    output := "{\n"
      + i1 + Quote(METADATA_JSON_KEY) + " : {\n"
      + i2 + Kvcn(DESCRIPTION_JSON_KEY, DESCRIPTION_PLACEHOLDER)
      + i2 + Kvn(TYPE_JSON_KEY, LASTMOD)
      + i1 + "},\n"
      + i1 + Quote(CHANGE_SETS_JSON_KEY) + " : [\n";
    var n := 0;
    while n < |bindings|
      invariant 0 <= n <= |bindings|
      invariant output == WithBlocks(HeaderText(), bindings[..n])
    {
      var q := bindings[n].0;
      var bs := bindings[n].1.bindings;
      output := output + i2 + "{\n" + i2 + Kvcn(SCHEME_JSON_KEY, q.scheme);
      if q.platform.Some? {
        output := output + i2 + Kvcn(PLATFORM_JSON_KEY, q.platform.value);
      }
      output := output
        + i2 + Kvcn(CONTEXT_JSON_KEY, q.context)
        + i2 + Kvcn(ACTION_JSON_KEY, ADD_JSON_KEY)
        + i2 + Quote(BINDINGS_JSON_KEY) + " : [\n";
      output := AppendBindings(output, bs);
      output := output + i3 + "]\n" + i2 + "},\n";
      WithBlocksSnoc(HeaderText(), bindings, n);
      n := n + 1;
    }
    assert bindings[..n] == bindings;
    output := output + i1 + "]\n";
    output := output + "}";
    BuiltTextIsPrintout(bindings);
  }

  // Each group of appends adds one line of the document with its newline.

  lemma AppendAssoc<T>(a: seq<T>, b: seq<T>, c: seq<T>)
    ensures a + b + c == a + (b + c)
  {
  }

  lemma AppendTextLine(o: string, lines: seq<string>, i: string, text: string, line: string)
    requires o == Terminated(lines)
    requires text == line + "\n"
    ensures o + i + text == Terminated(lines + [i + line])
  {
    TerminatedSnoc(lines, i + line);
    AppendAssoc(o, i, line);
    AppendAssoc(o, i, line + "\n");
    AppendAssoc(o + i, line, "\n");
  }

  lemma AppendKvcnLine(o: string, lines: seq<string>, i: string, key: string, value: string)
    requires o == Terminated(lines)
    ensures o + i + Kvcn(key, value) == Terminated(lines + [i + Kv(key, value) + ","])
  {
    assert Kvcn(key, value) == Kv(key, value) + "," + "\n";
    AppendTextLine(o, lines, i, Kvcn(key, value), Kv(key, value) + ",");
    AppendAssoc(i, Kv(key, value), ",");
  }

  lemma AppendKvnLine(o: string, lines: seq<string>, i: string, key: string, value: string)
    requires o == Terminated(lines)
    ensures o + i + Kvn(key, value) == Terminated(lines + [i + Kv(key, value)])
  {
    AppendTextLine(o, lines, i, Kvn(key, value), Kv(key, value));
  }

  lemma AppendQuotedLine(o: string, lines: seq<string>, i: string, key: string, text: string, line: string)
    requires o == Terminated(lines)
    requires text == line + "\n"
    ensures o + i + Quote(key) + text == Terminated(lines + [i + Quote(key) + line])
  {
    AppendTextLine(o, lines, i + Quote(key), text, line);
    AppendAssoc(o, i, Quote(key));
  }

  lemma HeaderTextLines()
    ensures HeaderText() == Terminated(HeaderLines())
  {
    var i1, i2 := Indent(1), Indent(2);
    var o, ls := "{\n", ["{"];
    assert o == Terminated(ls);
    AppendQuotedLine(o, ls, i1, METADATA_JSON_KEY, " : {\n", " : {");
    o, ls := o + i1 + Quote(METADATA_JSON_KEY) + " : {\n", ls + [i1 + Quote(METADATA_JSON_KEY) + " : {"];
    AppendKvcnLine(o, ls, i2, DESCRIPTION_JSON_KEY, DESCRIPTION_PLACEHOLDER);
    o, ls := o + i2 + Kvcn(DESCRIPTION_JSON_KEY, DESCRIPTION_PLACEHOLDER),
      ls + [i2 + Kv(DESCRIPTION_JSON_KEY, DESCRIPTION_PLACEHOLDER) + ","];
    AppendKvnLine(o, ls, i2, TYPE_JSON_KEY, LASTMOD);
    o, ls := o + i2 + Kvn(TYPE_JSON_KEY, LASTMOD), ls + [i2 + Kv(TYPE_JSON_KEY, LASTMOD)];
    AppendTextLine(o, ls, i1, "},\n", "},");
    o, ls := o + i1 + "},\n", ls + [i1 + "},"];
    AppendQuotedLine(o, ls, i1, CHANGE_SETS_JSON_KEY, " : [\n", " : [");
    Regroup6("{", i1 + Quote(METADATA_JSON_KEY) + " : {", i2 + Kv(DESCRIPTION_JSON_KEY, DESCRIPTION_PLACEHOLDER) + ",",
      i2 + Kv(TYPE_JSON_KEY, LASTMOD), i1 + "},", i1 + Quote(CHANGE_SETS_JSON_KEY) + " : [");
  }

  lemma Regroup6(a: string, b: string, c: string, d: string, e: string, f: string)
    ensures [a] + [b] + [c] + [d] + [e] + [f] == [a, b, c, d, e, f]
  {
  }

  lemma RegroupHead(before: seq<string>, a: string, b: string, p: seq<string>, c: string, d: string, e: string)
    ensures before + [a] + [b] + p + [c] + [d] + [e] == before + ([a, b] + p + [c, d, e])
  {
  }

  lemma BlockHeadTextLines(acc: string, before: seq<string>, q: Qualifier)
    requires acc == Terminated(before)
    ensures WithBlockHead(acc, q) == Terminated(before + BlockHeadLines(q))
  {
    var i2 := Indent(2);
    AppendTextLine(acc, before, i2, "{\n", "{");
    var o1, l1 := acc + i2 + "{\n", before + [i2 + "{"];
    AppendKvcnLine(o1, l1, i2, SCHEME_JSON_KEY, q.scheme);
    var o2, l2 := o1 + i2 + Kvcn(SCHEME_JSON_KEY, q.scheme), l1 + [i2 + Kv(SCHEME_JSON_KEY, q.scheme) + ","];
    var o3, l3;
    if q.platform.Some? {
      AppendKvcnLine(o2, l2, i2, PLATFORM_JSON_KEY, q.platform.value);
      o3, l3 := o2 + i2 + Kvcn(PLATFORM_JSON_KEY, q.platform.value), l2 + PlatformLines(q.platform);
    } else {
      o3, l3 := o2, l2 + PlatformLines(q.platform);
      assert l3 == l2;
    }
    AppendKvcnLine(o3, l3, i2, CONTEXT_JSON_KEY, q.context);
    var o4, l4 := o3 + i2 + Kvcn(CONTEXT_JSON_KEY, q.context), l3 + [i2 + Kv(CONTEXT_JSON_KEY, q.context) + ","];
    AppendKvcnLine(o4, l4, i2, ACTION_JSON_KEY, ADD_JSON_KEY);
    var o5, l5 := o4 + i2 + Kvcn(ACTION_JSON_KEY, ADD_JSON_KEY), l4 + [i2 + Kv(ACTION_JSON_KEY, ADD_JSON_KEY) + ","];
    AppendQuotedLine(o5, l5, i2, BINDINGS_JSON_KEY, " : [\n", " : [");
    RegroupHead(before, i2 + "{", i2 + Kv(SCHEME_JSON_KEY, q.scheme) + ",", PlatformLines(q.platform),
      i2 + Kv(CONTEXT_JSON_KEY, q.context) + ",", i2 + Kv(ACTION_JSON_KEY, ADD_JSON_KEY) + ",",
      i2 + Quote(BINDINGS_JSON_KEY) + " : [");
  }

  lemma {:induction false} BindingsTextLines(acc: string, before: seq<string>, bs: seq<KbaBinding>)
    requires acc == Terminated(before)
    ensures WithBindings(acc, bs) == Terminated(before + BindingLines(bs))
    decreases |bs|
  {
    if bs == [] {
      assert before + BindingLines(bs) == before;
    } else {
      var init, last := bs[..|bs| - 1], bs[|bs| - 1];
      BindingsTextLines(acc, before, init);
      AppendAssoc(before, BindingLines(init), [BindingLine(last)]);
      TerminatedSnoc(before + BindingLines(init), BindingLine(last));
    }
  }

  lemma RegroupBlock(before: seq<string>, h: seq<string>, b: seq<string>, x: string, y: string)
    ensures before + h + b + [x] + [y] == before + (h + b + [x, y])
  {
  }

  lemma BlockTextLines(acc: string, before: seq<string>, q: Qualifier, cs: ChangeSet)
    requires acc == Terminated(before)
    ensures WithBlock(acc, q, cs) == Terminated(before + BlockLines(q, cs))
  {
    var i2, i3 := Indent(2), Indent(3);
    BlockHeadTextLines(acc, before, q);
    var head := WithBlockHead(acc, q);
    BindingsTextLines(head, before + BlockHeadLines(q), cs.bindings);
    var o := WithBindings(head, cs.bindings);
    var ls := before + BlockHeadLines(q) + BindingLines(cs.bindings);
    AppendTextLine(o, ls, i3, "]\n", "]");
    AppendTextLine(o + i3 + "]\n", ls + [i3 + "]"], i2, "},\n", "},");
    RegroupBlock(before, BlockHeadLines(q), BindingLines(cs.bindings), i3 + "]", i2 + "},");
  }

  lemma {:induction false} BlocksTextLines(acc: string, before: seq<string>, m: ChangeSetMap)
    requires acc == Terminated(before)
    ensures WithBlocks(acc, m) == Terminated(before + BlocksLines(m))
    decreases |m|
  {
    if m == [] {
      assert before + BlocksLines(m) == before;
    } else {
      var init, last := m[..|m| - 1], m[|m| - 1];
      BlocksTextLines(acc, before, init);
      BlockTextLines(WithBlocks(acc, init), before + BlocksLines(init), last.0, last.1);
      AppendAssoc(before, BlocksLines(init), BlockLines(last.0, last.1));
    }
  }

  lemma BuiltTextIsPrintout(m: ChangeSetMap)
    ensures BuiltText(m) == Document(m)
  {
    var i1 := Indent(1);
    HeaderTextLines();
    BlocksTextLines(HeaderText(), HeaderLines(), m);
    var body := HeaderLines() + BlocksLines(m);
    AppendTextLine(WithBlocks(HeaderText(), m), body, i1, "]\n", "]");
    JoinSnoc(body + [i1 + "]"], "}");
    AppendAssoc(body, [i1 + "]"], ["}"]);
    assert [i1 + "]"] + ["}"] == FooterLines();
  }
}
