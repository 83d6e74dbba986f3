/**
 * The document read back as lines: when no scheme, platform, context, key
 * sequence or command id holds a newline, splitting the printout at its
 * newlines gives exactly its line list, so every binding is one line.
 */
module DocumentLines {
  import opened KbaModel
  import opened FormatHelpers
  import opened UrlEncoding
  import opened Printout

  /** The text between newlines, first to last; a text without newline is one line. */
  function SplitLines(t: string): (r: seq<string>)
    ensures |r| > 0
    decreases |t|
  {
    if t == [] then [""]
    else if t[0] == '\n' then [""] + SplitLines(t[1..])
    else var rest := SplitLines(t[1..]); [[t[0]] + rest[0]] + rest[1..]
  }

  predicate OneLine(s: string) {
    '\n' !in s
  }

  lemma {:induction false} SplitLinesOfLine(x: string)
    requires OneLine(x)
    ensures SplitLines(x) == [x]
  {
    if x != [] {
      SplitLinesOfLine(x[1..]);
      assert [x[0]] + x[1..] == x;
    }
  }

  lemma {:induction false} SplitLinesAtNewline(x: string, y: string)
    requires OneLine(x)
    ensures SplitLines(x + "\n" + y) == [x] + SplitLines(y)
  {
    var t := x + "\n" + y;
    if x == [] {
      assert t[0] == '\n' && t[1..] == y;
    } else {
      assert t[0] == x[0] && t[1..] == x[1..] + "\n" + y;
      SplitLinesAtNewline(x[1..], y);
      assert [x[0]] + x[1..] == x;
    }
  }

  predicate AllOneLine(lines: seq<string>) {
    forall i :: 0 <= i < |lines| ==> OneLine(lines[i])
  }

  /** Splitting undoes joining with newlines. */
  lemma {:induction false} SplitJoin(lines: seq<string>)
    requires lines != [] && AllOneLine(lines)
    ensures SplitLines(Join("\n", lines)) == lines
    decreases |lines|
  {
    if |lines| == 1 {
      SplitLinesOfLine(lines[0]);
    } else {
      var rest := lines[1..];
      assert AllOneLine(rest) by {
        forall i | 0 <= i < |rest| ensures OneLine(rest[i]) {
          assert rest[i] == lines[i + 1];
        }
      }
      SplitJoin(rest);
      SplitLinesAtNewline(lines[0], Join("\n", rest));
      assert [lines[0]] + rest == lines;
    }
  }

  /** The strings of a binding that are quoted as they are. */
  predicate BindingOneLine(b: KbaBinding) {
    OneLine(b.keySequence) && OneLine(b.cid)
  }

  predicate QualifierOneLine(q: Qualifier) {
    OneLine(q.scheme) && OneLine(q.context) && (q.platform.Some? ==> OneLine(q.platform.value))
  }

  /** No string of the map that reaches the document unencoded holds a newline. */
  predicate MapOneLine(m: ChangeSetMap) {
    forall i :: 0 <= i < |m| ==>
      QualifierOneLine(m[i].0) && forall j :: 0 <= j < |m[i].1.bindings| ==> BindingOneLine(m[i].1.bindings[j])
  }

  lemma ConcatOneLine(a: string, b: string)
    requires OneLine(a) && OneLine(b)
    ensures OneLine(a + b)
  {
    assert forall k :: 0 <= k < |a + b| ==> (a + b)[k] == if k < |a| then a[k] else b[k - |a|];
  }

  lemma AppendAllOneLine(a: seq<string>, b: seq<string>)
    requires AllOneLine(a) && AllOneLine(b)
    ensures AllOneLine(a + b)
  {
    assert forall k :: 0 <= k < |a + b| ==> (a + b)[k] == if k < |a| then a[k] else b[k - |a|];
  }

  lemma IndentOneLine(n: nat)
    ensures OneLine(Indent(n))
  {
    IndentIsSpaces(n);
  }

  lemma KvOneLine(key: string, value: string)
    requires OneLine(key) && OneLine(value)
    ensures OneLine(Kv(key, value))
  {
    ConcatOneLine(Quote(key), " : ");
    ConcatOneLine(Quote(key) + " : ", Quote(value));
  }

  lemma FieldLineOneLine(key: string, value: string)
    requires OneLine(key) && OneLine(value)
    ensures OneLine(FieldLine(key, value))
  {
    IndentOneLine(2);
    KvOneLine(key, value);
    ConcatOneLine(Indent(2), Kv(key, value));
    ConcatOneLine(Indent(2) + Kv(key, value), ",");
  }

  lemma EncodedOneLine(s: string)
    ensures OneLine(UrlEncode(s))
  {
    UrlEncodeAlphabet(s);
  }

  lemma {:induction false} JoinOneLine(sep: string, items: seq<string>)
    requires OneLine(sep) && AllOneLine(items)
    ensures OneLine(Join(sep, items))
    decreases |items|
  {
    if |items| > 1 {
      assert AllOneLine(items[1..]) by {
        forall i | 0 <= i < |items| - 1 ensures OneLine(items[1..][i]) {
          assert items[1..][i] == items[i + 1];
        }
      }
      JoinOneLine(sep, items[1..]);
      ConcatOneLine(items[0], sep);
      ConcatOneLine(items[0] + sep, Join(sep, items[1..]));
    }
  }

  lemma {:induction false} KvEntriesOneLine(ps: ParameterMap)
    requires forall i :: 0 <= i < |ps| ==> OneLine(ps[i].0) && OneLine(ps[i].1)
    ensures AllOneLine(KvEntries(ps))
    decreases |ps|
  {
    if ps != [] {
      KvEntriesOneLine(ps[1..]);
      KvOneLine(ps[0].0, ps[0].1);
      AppendAllOneLine([Kv(ps[0].0, ps[0].1)], KvEntries(ps[1..]));
    }
  }

  lemma {:induction false} EncodePairsOneLine(ps: ParameterMap)
    ensures forall i :: 0 <= i < |EncodePairs(ps)| ==> OneLine(EncodePairs(ps)[i].0) && OneLine(EncodePairs(ps)[i].1)
    decreases |ps|
  {
    if ps != [] {
      EncodePairsOneLine(ps[1..]);
      EncodedOneLine(ps[0].0);
      EncodedOneLine(ps[0].1);
    }
  }

  lemma FormatParametersOneLine(ps: ParameterMap)
    ensures OneLine(FormatParameters(ps))
  {
    EncodePairsOneLine(ps);
    KvEntriesOneLine(EncodePairs(ps));
    JoinOneLine(", ", KvEntries(EncodePairs(ps)));
    ConcatOneLine("{", Join(", ", KvEntries(EncodePairs(ps))));
    ConcatOneLine("{" + Join(", ", KvEntries(EncodePairs(ps))), "}");
  }

  /** A binding line holds no newline: the parameters are encoded, the rest is the binding's own text. */
  lemma BindingLineOneLine(b: KbaBinding)
    requires BindingOneLine(b)
    ensures OneLine(BindingLine(b))
  {
    var keys := Kvcs(KEYS_JSON_KEY, b.keySequence);
    KvOneLine(KEYS_JSON_KEY, b.keySequence);
    ConcatOneLine(Kv(KEYS_JSON_KEY, b.keySequence), ", ");
    KvOneLine(COMMAND_JSON_KEY, b.cid);
    var c := FormatCommand(b);
    if |b.parameters| > 0 {
      var f := FormatParameters(b.parameters);
      FormatParametersOneLine(b.parameters);
      ConcatOneLine(Quote(COMMAND_PARAMETERS_JSON_KEY) + " : ", f);
      ConcatOneLine(", ", Kd(COMMAND_PARAMETERS_JSON_KEY, f));
      ConcatOneLine(Kv(COMMAND_JSON_KEY, b.cid), ", " + Kd(COMMAND_PARAMETERS_JSON_KEY, f));
    } else {
      assert c == Kv(COMMAND_JSON_KEY, b.cid) + "";
    }
    IndentOneLine(3);
    ConcatOneLine(Indent(3), "{");
    ConcatOneLine(Indent(3) + "{", keys);
    ConcatOneLine(Indent(3) + "{" + keys, c);
    ConcatOneLine(Indent(3) + "{" + keys + c, "},");
  }

  lemma {:induction false} BindingLinesOneLine(bs: seq<KbaBinding>)
    requires forall j :: 0 <= j < |bs| ==> BindingOneLine(bs[j])
    ensures AllOneLine(BindingLines(bs))
    decreases |bs|
  {
    if bs != [] {
      BindingLinesOneLine(bs[..|bs| - 1]);
      BindingLineOneLine(bs[|bs| - 1]);
      AppendAllOneLine(BindingLines(bs[..|bs| - 1]), [BindingLine(bs[|bs| - 1])]);
    }
  }

  lemma BlockHeadOneLine(q: Qualifier)
    requires QualifierOneLine(q)
    ensures AllOneLine(BlockHeadLines(q))
  {
    IndentOneLine(2);
    ConcatOneLine(Indent(2), "{");
    FieldLineOneLine(SCHEME_JSON_KEY, q.scheme);
    if q.platform.Some? {
      FieldLineOneLine(PLATFORM_JSON_KEY, q.platform.value);
    }
    FieldLineOneLine(CONTEXT_JSON_KEY, q.context);
    FieldLineOneLine(ACTION_JSON_KEY, ADD_JSON_KEY);
    ConcatOneLine(Indent(2), Quote(BINDINGS_JSON_KEY));
    ConcatOneLine(Indent(2) + Quote(BINDINGS_JSON_KEY), " : [");
    var l := BlockHeadLines(q);
    assert forall i :: 0 <= i < |l| ==> (l[i] == Indent(2) + "{" || l[i] == FieldLine(SCHEME_JSON_KEY, q.scheme)
      || (q.platform.Some? && l[i] == FieldLine(PLATFORM_JSON_KEY, q.platform.value))
      || l[i] == FieldLine(CONTEXT_JSON_KEY, q.context) || l[i] == FieldLine(ACTION_JSON_KEY, ADD_JSON_KEY)
      || l[i] == Indent(2) + Quote(BINDINGS_JSON_KEY) + " : [");
  }

  lemma BlockOneLine(q: Qualifier, cs: ChangeSet)
    requires QualifierOneLine(q)
    requires forall j :: 0 <= j < |cs.bindings| ==> BindingOneLine(cs.bindings[j])
    ensures AllOneLine(BlockLines(q, cs))
  {
    BlockHeadOneLine(q);
    BindingLinesOneLine(cs.bindings);
    IndentOneLine(2);
    IndentOneLine(3);
    ConcatOneLine(Indent(3), "]");
    ConcatOneLine(Indent(2), "},");
    AppendAllOneLine(BlockHeadLines(q), BindingLines(cs.bindings));
    AppendAllOneLine(BlockHeadLines(q) + BindingLines(cs.bindings), BlockTailLines());
  }

  lemma {:induction false} BlocksOneLine(m: ChangeSetMap)
    requires MapOneLine(m)
    ensures AllOneLine(BlocksLines(m))
    decreases |m|
  {
    if m != [] {
      var init := m[..|m| - 1];
      assert MapOneLine(init) by {
        forall i | 0 <= i < |init| ensures init[i] == m[i] { }
      }
      BlocksOneLine(init);
      BlockOneLine(m[|m| - 1].0, m[|m| - 1].1);
      AppendAllOneLine(BlocksLines(init), BlockLines(m[|m| - 1].0, m[|m| - 1].1));
    }
  }

  lemma HeaderOneLine()
    ensures AllOneLine(HeaderLines())
  {
    IndentOneLine(1);
    IndentOneLine(2);
    ConcatOneLine(Indent(1), Quote(METADATA_JSON_KEY));
    ConcatOneLine(Indent(1) + Quote(METADATA_JSON_KEY), " : {");
    KvOneLine(DESCRIPTION_JSON_KEY, DESCRIPTION_PLACEHOLDER);
    ConcatOneLine(Indent(2), Kv(DESCRIPTION_JSON_KEY, DESCRIPTION_PLACEHOLDER));
    ConcatOneLine(Indent(2) + Kv(DESCRIPTION_JSON_KEY, DESCRIPTION_PLACEHOLDER), ",");
    KvOneLine(TYPE_JSON_KEY, LASTMOD);
    ConcatOneLine(Indent(2), Kv(TYPE_JSON_KEY, LASTMOD));
    ConcatOneLine(Indent(1), "},");
    ConcatOneLine(Indent(1), Quote(CHANGE_SETS_JSON_KEY));
    ConcatOneLine(Indent(1) + Quote(CHANGE_SETS_JSON_KEY), " : [");
  }

  lemma FooterOneLine()
    ensures AllOneLine(FooterLines())
  {
    IndentOneLine(1);
    ConcatOneLine(Indent(1), "]");
  }

  /**
   * The printout is its line list joined by newlines and nothing else: split
   * at its newlines, it gives back exactly DocLines, one line per binding.
   */
  lemma DocumentSplitsIntoLines(m: ChangeSetMap)
    requires MapOneLine(m)
    ensures SplitLines(Document(m)) == DocLines(m)
  {
    HeaderOneLine();
    BlocksOneLine(m);
    FooterOneLine();
    AppendAllOneLine(HeaderLines(), BlocksLines(m));
    AppendAllOneLine(HeaderLines() + BlocksLines(m), FooterLines());
    SplitJoin(DocLines(m));
  }
}
