/**
 * What the document of getBindingsPrintout looks like: its fixed frame,
 * one block per change-set in map order, the layout of a block, the shape
 * of a binding line, and the line structure of the whole text.
 */
module PrintoutProperties {
  import opened Wrappers
  import opened KbaModel
  import opened FormatHelpers
  import opened Printout

  /** The line that opens a change-set block, and the one that closes it. */
  const BLOCK_OPEN: string := "    {"
  const BLOCK_CLOSE: string := "    },"

  lemma {:induction false} BindingLinesAt(bs: seq<KbaBinding>)
    ensures |BindingLines(bs)| == |bs|
    ensures forall i :: 0 <= i < |bs| ==> BindingLines(bs)[i] == BindingLine(bs[i])
    decreases |bs|
  {
    if bs != [] {
      var init, last := bs[..|bs| - 1], bs[|bs| - 1];
      BindingLinesAt(init);
      SnocAt(BindingLines(init), BindingLine(last));
      SnocAt(init, last);
      assert init + [last] == bs;
    }
  }

  /** The elements of a sequence with one more at its end. */
  lemma SnocAt<T>(a: seq<T>, x: T)
    ensures |a + [x]| == |a| + 1 && (a + [x])[|a|] == x
    ensures forall i :: 0 <= i < |a| ==> (a + [x])[i] == a[i]
  {
  }

  /** The blocks of two maps in sequence are the blocks of the first, then those of the second. */
  lemma {:induction false} BlocksLinesAppend(m1: ChangeSetMap, m2: ChangeSetMap)
    ensures BlocksLines(m1 + m2) == BlocksLines(m1) + BlocksLines(m2)
    decreases |m2|
  {
    if m2 == [] {
      assert m1 + m2 == m1;
    } else {
      var init, last := m2[..|m2| - 1], m2[|m2| - 1];
      assert (m1 + m2)[..|m1 + m2| - 1] == m1 + init;
      BlocksLinesAppend(m1, init);
      AppendAssoc(BlocksLines(m1), BlocksLines(init), BlockLines(last.0, last.1));
    }
  }

  /** A one-entry map gives exactly the block of its entry. */
  lemma BlocksLinesSingle(q: Qualifier, cs: ChangeSet)
    ensures BlocksLines([(q, cs)]) == BlockLines(q, cs)
  {
    assert [(q, cs)][..0] == [];
  }

  /** The fifth character of a field line, right after the opening quote, is the key's first. */
  lemma FieldLineChars(key: string, value: string)
    requires key != []
    ensures |FieldLine(key, value)| == |key| + |value| + 12
    ensures FieldLine(key, value)[..5] == "    '" && FieldLine(key, value)[5] == key[0]
  {
    IndentValues();
    PairShapes(key, value);
    assert FieldLine(key, value) == "    '" + key + "' : '" + value + "',";
  }

  /** The value of a field line is the text between the separator's quote and the closing quote. */
  lemma FieldLineValue(key: string, value: string)
    ensures FieldLine(key, value)[|key| + 10..|key| + 10 + |value|] == value
  {
    IndentValues();
    var line := FieldLine(key, value);
    assert line == "    '" + key + "' : '" + value + "',";
    assert line[|key| + 10..|key| + 10 + |value|] == value by {
      forall k | 0 <= k < |value|
        ensures line[|key| + 10 + k] == value[k]
      {
        assert line == ("    '" + key + "' : '") + value + "',";
      }
    }
  }

  /** The platform line is in a block's head exactly when the qualifier has that platform. */
  lemma PlatformLineIff(q: Qualifier, p: string)
    ensures FieldLine(PLATFORM_JSON_KEY, p) in BlockHeadLines(q) <==> q.platform == Some(p)
  {
    var pl := FieldLine(PLATFORM_JSON_KEY, p);
    var h := BlockHeadLines(q);
    FieldLineChars(PLATFORM_JSON_KEY, p);
    FieldLineChars(SCHEME_JSON_KEY, q.scheme);
    FieldLineChars(CONTEXT_JSON_KEY, q.context);
    FieldLineChars(ACTION_JSON_KEY, ADD_JSON_KEY);
    IndentValues();
    if q.platform.Some? {
      var p' := q.platform.value;
      FieldLineChars(PLATFORM_JSON_KEY, p');
      assert h == [h[0], h[1], FieldLine(PLATFORM_JSON_KEY, p'), h[3], h[4], h[5]];
      if pl == FieldLine(PLATFORM_JSON_KEY, p') {
        FieldLineValue(PLATFORM_JSON_KEY, p);
        FieldLineValue(PLATFORM_JSON_KEY, p');
      }
    } else {
      assert h == [h[0], h[1], h[2], h[3], h[4]];
    }
  }

  /** The footer lines, written out: the change-set list and the document are closed. */
  lemma FooterLinesText()
    ensures FooterLines() == ["  ]", "}"]
  {
    IndentValues();
    assert FooterLines()[0] == "  ]";
  }

  lemma JoinFramed(h: seq<string>, b: seq<string>, f1: string, f2: string)
    ensures Join("\n", h + b + [f1, f2]) == Terminated(h) + Terminated(b) + (f1 + "\n" + f2)
  {
    var body := h + b;
    AppendAssoc(body, [f1], [f2]);
    assert [f1] + [f2] == [f1, f2];
    JoinSnoc(body + [f1], f2);
    TerminatedSnoc(body, f1);
    TerminatedAppend(h, b);
    var text := Terminated(body);
    AppendAssoc(text, f1, "\n");
    AppendAssoc(text, f1 + "\n", f2);
  }

  /** The text is the header, the blocks and the footer; the last line has no newline. */
  lemma PrintoutFrame(m: ChangeSetMap)
    ensures Document(m) == Terminated(HeaderLines()) + Terminated(BlocksLines(m)) + "  ]\n}"
  {
    FooterLinesText();
    JoinFramed(HeaderLines(), BlocksLines(m), "  ]", "}");
    assert "  ]" + "\n" + "}" == "  ]\n}";
  }

  /** Where each line of a block's head is: k is 1 when there is a platform line. */
  lemma BlockHeadLayout(q: Qualifier)
    ensures
      var h, k := BlockHeadLines(q), (if q.platform.Some? then 1 else 0);
      && |h| == 5 + k
      && h[0] == BLOCK_OPEN
      && h[1] == FieldLine(SCHEME_JSON_KEY, q.scheme)
      && (q.platform.Some? ==> h[2] == FieldLine(PLATFORM_JSON_KEY, q.platform.value))
      && h[2 + k] == FieldLine(CONTEXT_JSON_KEY, q.context)
      && h[3 + k] == "    'action' : 'add',"
      && h[4 + k] == "    'bindings' : ["
  {
    IndentValues();
    assert FieldLine(ACTION_JSON_KEY, ADD_JSON_KEY) == "    'action' : 'add',";
    assert Indent(2) + Quote(BINDINGS_JSON_KEY) + " : [" == "    'bindings' : [";
  }

  /** Where each line of a block is: k is 1 when there is a platform line, n the number of bindings. */
  lemma BlockLayout(q: Qualifier, cs: ChangeSet)
    ensures
      var l, k, n := BlockLines(q, cs), (if q.platform.Some? then 1 else 0), |cs.bindings|;
      && |l| == 7 + k + n
      && l[..5 + k] == BlockHeadLines(q)
      && (forall i :: 0 <= i < n ==> l[5 + k + i] == BindingLine(cs.bindings[i]))
      && l[5 + k + n] == "      ]"
      && l[6 + k + n] == BLOCK_CLOSE
  {
    BlockHeadLayout(q);
    BindingLinesAt(cs.bindings);
    var h, b, t := BlockHeadLines(q), BindingLines(cs.bindings), BlockTailLines();
    TailLinesText();
    ConcatAt(h, b, t);
  }

  lemma TailLinesText()
    ensures BlockTailLines() == ["      ]", BLOCK_CLOSE]
  {
    IndentValues();
    assert BlockTailLines()[0] == "      ]";
    assert BlockTailLines()[1] == BLOCK_CLOSE;
  }

  lemma ConcatAt<T>(h: seq<T>, b: seq<T>, t: seq<T>)
    ensures |h + b + t| == |h| + |b| + |t|
    ensures (h + b + t)[..|h|] == h
    ensures forall i :: 0 <= i < |b| ==> (h + b + t)[|h| + i] == b[i]
    ensures forall i :: 0 <= i < |t| ==> (h + b + t)[|h| + |b| + i] == t[i]
  {
    assert (h + b + t)[..|h|] == h;
  }

  /** How many lines of ls are x. */
  function CountOf(ls: seq<string>, x: string): nat
    decreases |ls|
  {
    if ls == [] then 0 else (if ls[0] == x then 1 else 0) + CountOf(ls[1..], x)
  }

  lemma {:induction false} CountAppend(a: seq<string>, b: seq<string>, x: string)
    ensures CountOf(a + b, x) == CountOf(a, x) + CountOf(b, x)
    decreases |a|
  {
    if a == [] {
      assert a + b == b;
    } else {
      assert (a + b)[1..] == a[1..] + b;
      CountAppend(a[1..], b, x);
    }
  }

  /** Lines of another length than x are never x. */
  lemma {:induction false} CountOtherLengths(ls: seq<string>, x: string)
    requires forall i :: 0 <= i < |ls| ==> |ls[i]| != |x|
    ensures CountOf(ls, x) == 0
    decreases |ls|
  {
    if ls != [] {
      CountOtherLengths(ls[1..], x);
    }
  }

  /** A binding line is longer than the lines that open and close a block. */
  lemma BindingLineLength(b: KbaBinding)
    ensures |BindingLine(b)| > 6
  {
  }

  lemma ConcatInnerLonger(h: seq<string>, b: seq<string>, t: seq<string>, n: nat)
    requires |h| >= 1 && |t| >= 1
    requires forall i :: 1 <= i < |h| ==> |h[i]| > n
    requires forall i :: 0 <= i < |b| ==> |b[i]| > n
    requires forall i :: 0 <= i < |t| - 1 ==> |t[i]| > n
    ensures forall i :: 1 <= i < |h + b + t| - 1 ==> |(h + b + t)[i]| > n
  {
  }

  lemma HeadInnerLengths(q: Qualifier)
    ensures var h := BlockHeadLines(q);
      forall i :: 1 <= i < |h| ==> |h[i]| > 6
  {
    BlockHeadLayout(q);
    FieldLineChars(SCHEME_JSON_KEY, q.scheme);
    FieldLineChars(CONTEXT_JSON_KEY, q.context);
    if q.platform.Some? {
      FieldLineChars(PLATFORM_JSON_KEY, q.platform.value);
    }
  }

  /** Between the first and the last line, every line of a block is longer than six characters. */
  lemma BlockInnerLengths(q: Qualifier, cs: ChangeSet)
    ensures var l := BlockLines(q, cs);
      forall i :: 1 <= i < |l| - 1 ==> |l[i]| > 6
  {
    var h, b, t := BlockHeadLines(q), BindingLines(cs.bindings), BlockTailLines();
    HeadInnerLengths(q);
    BindingLinesAt(cs.bindings);
    forall i | 0 <= i < |b|
      ensures |b[i]| > 6
    {
      BindingLineLength(cs.bindings[i]);
    }
    TailLinesText();
    ConcatInnerLonger(h, b, t, 6);
  }

  /** Each block has one opening and one closing line. */
  lemma BlockCounts(q: Qualifier, cs: ChangeSet)
    ensures CountOf(BlockLines(q, cs), BLOCK_OPEN) == 1
    ensures CountOf(BlockLines(q, cs), BLOCK_CLOSE) == 1
  {
    var l := BlockLines(q, cs);
    BlockLayout(q, cs);
    BlockInnerLengths(q, cs);
    var mid := l[1..|l| - 1];
    assert l == [l[0]] + mid + [l[|l| - 1]];
    CountAppend([l[0]] + mid, [l[|l| - 1]], BLOCK_OPEN);
    CountAppend([l[0]], mid, BLOCK_OPEN);
    CountAppend([l[0]] + mid, [l[|l| - 1]], BLOCK_CLOSE);
    CountAppend([l[0]], mid, BLOCK_CLOSE);
    CountOtherLengths(mid, BLOCK_OPEN);
    CountOtherLengths(mid, BLOCK_CLOSE);
  }

  lemma {:induction false} BlocksCounts(m: ChangeSetMap)
    ensures CountOf(BlocksLines(m), BLOCK_OPEN) == |m|
    ensures CountOf(BlocksLines(m), BLOCK_CLOSE) == |m|
    decreases |m|
  {
    if m != [] {
      var init, last := m[..|m| - 1], m[|m| - 1];
      BlocksCounts(init);
      BlockCounts(last.0, last.1);
      CountAppend(BlocksLines(init), BlockLines(last.0, last.1), BLOCK_OPEN);
      CountAppend(BlocksLines(init), BlockLines(last.0, last.1), BLOCK_CLOSE);
    }
  }

  /** Exactly one block is opened and closed per entry of the map. */
  lemma DocumentBlockCount(m: ChangeSetMap)
    ensures CountOf(DocLines(m), BLOCK_OPEN) == |m|
    ensures CountOf(DocLines(m), BLOCK_CLOSE) == |m|
  {
    var h, b, f := HeaderLines(), BlocksLines(m), FooterLines();
    BlocksCounts(m);
    FooterLinesText();
    assert forall i :: 0 <= i < |h| ==> |h[i]| != 5 && |h[i]| != 6;
    CountOtherLengths(h, BLOCK_OPEN);
    CountOtherLengths(h, BLOCK_CLOSE);
    CountOtherLengths(f, BLOCK_OPEN);
    CountOtherLengths(f, BLOCK_CLOSE);
    CountAppend(h + b, f, BLOCK_OPEN);
    CountAppend(h, b, BLOCK_OPEN);
    CountAppend(h + b, f, BLOCK_CLOSE);
    CountAppend(h, b, BLOCK_CLOSE);
  }

  /** The commandParameters section is written exactly when the map is non-empty. */
  lemma CommandParametersIff(b: KbaBinding)
    ensures b.parameters == [] <==> FormatCommand(b) == Kv(COMMAND_JSON_KEY, b.cid)
    ensures b.parameters != [] ==> |FormatCommand(b)| > |Kv(COMMAND_JSON_KEY, b.cid)|
  {
    if b.parameters == [] {
      assert FormatCommand(b) == Kv(COMMAND_JSON_KEY, b.cid) + "";
    }
  }

  /** A binding line opens with three indents and a brace and closes with "},". */
  lemma BindingLineShape(b: KbaBinding)
    ensures var l := BindingLine(b);
      |l| > 9 && l[..7] == "      {" && l[|l| - 2..] == "},"
  {
    var body := Kvcs(KEYS_JSON_KEY, b.keySequence) + FormatCommand(b);
    IndentValues();
    assert BindingLine(b) == "      {" + body + "},";
  }
}
