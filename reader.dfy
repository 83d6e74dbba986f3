/**
 * A reader for the binding lines and commandParameters texts the formatter
 * writes: the partner that shows those texts lose nothing. Because urlEncoded
 * output never holds a quote, every quoted parameter key and value ends at
 * the next quote; key sequences and command ids are quoted as they are, so
 * they are read back when they hold no quote themselves.
 */
module PrintoutReader {
  import opened Wrappers
  import opened KbaModel
  import opened FormatHelpers
  import opened UrlEncoding
  import opened Printout

  /** The text before the first quote of u, and the text after that quote. */
  function SplitAtQuote(u: string): Option<(string, string)>
    decreases |u|
  {
    if u == [] then None
    else if u[0] == '\'' then Some(([], u[1..]))
    else match SplitAtQuote(u[1..])
      case None => None
      case Some((a, r)) => Some(([u[0]] + a, r))
  }

  /** A single-quoted string at the start of t, and the rest of t. */
  function ReadQuoted(t: string): Option<(string, string)> {
    if t == [] || t[0] != '\'' then None else SplitAtQuote(t[1..])
  }

  /** A pair 'key' : 'value' at the start of t, and the rest of t. */
  function ReadPair(t: string): Option<((string, string), string)> {
    match ReadQuoted(t)
    case None => None
    case Some((k, r1)) =>
      if |r1| < 3 || r1[..3] != " : " then None
      else match ReadQuoted(r1[3..])
        case None => None
        case Some((v, r2)) => Some(((k, v), r2))
  }

  lemma {:induction false} ReadPairShorter(t: string)
    ensures ReadPair(t).Some? ==> |ReadPair(t).value.1| < |t|
  {
    if ReadQuoted(t).Some? {
      SplitAtQuoteShorter(t[1..]);
      var r1 := ReadQuoted(t).value.1;
      if |r1| >= 3 && r1[..3] == " : " && ReadQuoted(r1[3..]).Some? {
        SplitAtQuoteShorter(r1[4..]);
      }
    }
  }

  lemma {:induction false} SplitAtQuoteShorter(u: string)
    ensures SplitAtQuote(u).Some? ==> |SplitAtQuote(u).value.1| < |u|
    decreases |u|
  {
    if u != [] && u[0] != '\'' {
      SplitAtQuoteShorter(u[1..]);
    }
  }

  /** Pairs separated by ", ", up to the first pair not followed by ", ". */
  function ReadEntries(t: string): Option<(ParameterMap, string)>
    decreases |t|
  {
    match ReadPair(t)
    case None => None
    case Some((p, r)) =>
      if |r| >= 2 && r[..2] == ", " then
        ReadPairShorter(t);
        match ReadEntries(r[2..])
        case None => None
        case Some((ps, r')) => Some(([p] + ps, r'))
      else Some(([p], r))
  }

  /** Every key and value passed through UrlDecode; None when one of them is not encoded. */
  function DecodePairs(ps: ParameterMap): Option<ParameterMap> {
    if ps == [] then Some([])
    else match (UrlDecode(ps[0].0), UrlDecode(ps[0].1), DecodePairs(ps[1..]))
      case (Some(k), Some(v), Some(rest)) => Some([(k, v)] + rest)
      case _ => None
  }

  /** The parameter map of a commandParameters text: braces around the entries. */
  function ReadParameters(t: string): Option<ParameterMap> {
    if t == "{}" then Some([])
    else if t == [] || t[0] != '{' then None
    else match ReadEntries(t[1..])
      case None => None
      case Some((ps, r)) => if r == "}" then DecodePairs(ps) else None
  }

  // Reading back what the formatter writes.

  lemma {:induction false} SplitAtQuoteOf(s: string, r: string)
    requires '\'' !in s
    ensures SplitAtQuote(s + "'" + r) == Some((s, r))
    decreases |s|
  {
    if s == [] {
      assert s + "'" + r == "'" + r;
    } else {
      assert (s + "'" + r)[1..] == s[1..] + "'" + r;
      SplitAtQuoteOf(s[1..], r);
      assert [s[0]] + s[1..] == s;
    }
  }

  lemma ReadQuotedOf(s: string, r: string)
    requires '\'' !in s
    ensures ReadQuoted(Quote(s) + r) == Some((s, r))
  {
    assert (Quote(s) + r)[1..] == s + "'" + r;
    SplitAtQuoteOf(s, r);
  }

  lemma ReadPairOf(k: string, v: string, r: string)
    requires '\'' !in k && '\'' !in v
    ensures ReadPair(Kv(k, v) + r) == Some(((k, v), r))
  {
    var r1 := " : " + Quote(v) + r;
    assert Kv(k, v) + r == Quote(k) + r1;
    ReadQuotedOf(k, r1);
    assert r1[..3] == " : " && r1[3..] == Quote(v) + r;
    ReadQuotedOf(v, r);
  }

  predicate QuoteFree(ps: ParameterMap) {
    forall i :: 0 <= i < |ps| ==> '\'' !in ps[i].0 && '\'' !in ps[i].1
  }

  lemma {:induction false} KvEntriesLength(ps: ParameterMap)
    ensures |KvEntries(ps)| == |ps|
  {
    if ps != [] {
      KvEntriesLength(ps[1..]);
    }
  }

  /** The joined entries are read back up to r, which does not continue the list. */
  lemma {:induction false} ReadEntriesOf(ps: ParameterMap, r: string)
    requires ps != [] && QuoteFree(ps)
    requires |r| < 2 || r[..2] != ", "
    ensures ReadEntries(Join(", ", KvEntries(ps)) + r) == Some((ps, r))
    decreases |ps|
  {
    var e, rest := KvEntries(ps), ps[1..];
    KvEntriesLength(ps);
    if rest == [] {
      assert e == [Kv(ps[0].0, ps[0].1)];
      ReadPairOf(ps[0].0, ps[0].1, r);
      assert [ps[0]] == ps;
    } else {
      var tail := Join(", ", KvEntries(rest)) + r;
      assert Join(", ", e) + r == Kv(ps[0].0, ps[0].1) + (", " + tail);
      ReadPairOf(ps[0].0, ps[0].1, ", " + tail);
      assert (", " + tail)[..2] == ", " && (", " + tail)[2..] == tail;
      ReadEntriesOf(rest, r);
      assert [ps[0]] + rest == ps;
    }
  }

  /** Every key and value as the US-ASCII encoder sees it. */
  function AsciiPairs(ps: ParameterMap): ParameterMap {
    if ps == [] then [] else [(ToUsAscii(ps[0].0), ToUsAscii(ps[0].1))] + AsciiPairs(ps[1..])
  }

  predicate AsciiPairsOnly(ps: ParameterMap) {
    forall i :: 0 <= i < |ps| ==> IsAscii(ps[i].0) && IsAscii(ps[i].1)
  }

  lemma {:induction false} EncodePairsQuoteFree(ps: ParameterMap)
    ensures QuoteFree(EncodePairs(ps)) && (ps != [] <==> EncodePairs(ps) != [])
  {
    if ps != [] {
      EncodePairsQuoteFree(ps[1..]);
      EncodedHasNoQuote(ps[0].0);
      EncodedHasNoQuote(ps[0].1);
      var e := EncodePairs(ps);
      assert e[1..] == EncodePairs(ps[1..]);
    }
  }

  lemma {:induction false} DecodeEncodePairs(ps: ParameterMap)
    ensures DecodePairs(EncodePairs(ps)) == Some(AsciiPairs(ps))
  {
    if ps != [] {
      DecodeEncodePairs(ps[1..]);
      DecodeEncode(ps[0].0);
      DecodeEncode(ps[0].1);
      var e := EncodePairs(ps);
      assert e[1..] == EncodePairs(ps[1..]);
    }
  }

  lemma {:induction false} AsciiPairsOfAscii(ps: ParameterMap)
    requires AsciiPairsOnly(ps)
    ensures AsciiPairs(ps) == ps
  {
    if ps != [] {
      AsciiPairsOfAscii(ps[1..]);
      ToUsAsciiOfAscii(ps[0].0);
      ToUsAsciiOfAscii(ps[0].1);
    }
  }

  /** Braces around a non-empty list of quote-free entries are read as those entries, decoded. */
  lemma ReadParametersOf(e: ParameterMap)
    requires e != [] && QuoteFree(e)
    ensures ReadParameters("{" + Join(", ", KvEntries(e)) + "}") == DecodePairs(e)
  {
    var j := Join(", ", KvEntries(e));
    var t := "{" + j + "}";
    ReadEntriesOf(e, "}");
    assert t[1..] == j + "}";
    JoinLength(e);
    assert t != "{}";
  }

  /**
   * Reading the commandParameters text gives the map back, in the same order,
   * with every non-ASCII character as '?'.
   */
  lemma FormatParametersRoundTrip(ps: ParameterMap)
    ensures ReadParameters(FormatParameters(ps)) == Some(AsciiPairs(ps))
  {
    EncodePairsQuoteFree(ps);
    DecodeEncodePairs(ps);
    if ps != [] {
      ReadParametersOf(EncodePairs(ps));
    }
  }

  lemma {:induction false} JoinLength(ps: ParameterMap)
    requires ps != []
    ensures |Join(", ", KvEntries(ps))| >= 7
  {
    if |ps| > 1 {
      KvEntriesLength(ps);
      JoinLength(ps[1..]);
    }
  }

  /** For ASCII keys and values the map is read back exactly. */
  lemma FormatParametersRoundTripAscii(ps: ParameterMap)
    requires AsciiPairsOnly(ps)
    ensures ReadParameters(FormatParameters(ps)) == Some(ps)
  {
    FormatParametersRoundTrip(ps);
    AsciiPairsOfAscii(ps);
  }

  /** The binding a line written by formatKbaBinding stands for. */
  function ReadBindingLine(line: string): Option<KbaBinding> {
    if |line| < 9 || line[..7] != "      {" || line[|line| - 2..] != "}," then None
    else match ReadPair(line[7..|line| - 2])
      case None => None
      case Some(((kk, keys), r1)) =>
        if kk != KEYS_JSON_KEY || |r1| < 2 || r1[..2] != ", " then None
        else match ReadPair(r1[2..])
          case None => None
          case Some(((ck, cid), r2)) =>
            if ck != COMMAND_JSON_KEY then None
            else if r2 == [] then Some(KbaBinding(keys, cid, []))
            else match ReadParametersSection(r2)
              case None => None
              case Some(ps) => Some(KbaBinding(keys, cid, ps))
  }

  /** ", 'commandParameters' : " and a parameters text. */
  function ReadParametersSection(t: string): Option<ParameterMap> {
    if |t| < 2 || t[..2] != ", " then None
    else match ReadQuoted(t[2..])
      case None => None
      case Some((pk, r)) =>
        if pk != COMMAND_PARAMETERS_JSON_KEY || |r| < 3 || r[..3] != " : " then None
        else ReadParameters(r[3..])
  }

  /** Splitting a concatenation back at the length of its first part. */
  lemma SplitPrefix(p: string, x: string)
    ensures (p + x)[..|p|] == p && (p + x)[|p|..] == x
  {
  }

  /** Taking the middle out of a concatenation of three parts. */
  lemma SplitFrame(p: string, x: string, z: string)
    ensures |p + x + z| == |p| + |x| + |z|
    ensures (p + x + z)[..|p|] == p
    ensures (p + x + z)[|p + x + z| - |z|..] == z
    ensures (p + x + z)[|p|..|p + x + z| - |z|] == x
  {
    assert p + x + z == p + (x + z);
    SplitPrefix(p, x + z);
    SplitPrefix(x, z);
  }

  lemma ReadParametersSectionOf(ps: ParameterMap)
    ensures ReadParametersSection(", " + Kd(COMMAND_PARAMETERS_JSON_KEY, FormatParameters(ps))) == Some(AsciiPairs(ps))
  {
    var f := FormatParameters(ps);
    var r := " : " + f;
    var q := Quote(COMMAND_PARAMETERS_JSON_KEY) + r;
    assert Kd(COMMAND_PARAMETERS_JSON_KEY, f) == q;
    SplitPrefix(", ", q);
    ReadQuotedOf(COMMAND_PARAMETERS_JSON_KEY, r);
    SplitPrefix(" : ", f);
    FormatParametersRoundTrip(ps);
  }

  lemma ReadCommandOf(b: KbaBinding)
    requires '\'' !in b.cid
    ensures ReadPair(FormatCommand(b)).Some?
    ensures ReadPair(FormatCommand(b)).value.0 == (COMMAND_JSON_KEY, b.cid)
    ensures var r := ReadPair(FormatCommand(b)).value.1;
      if b.parameters == [] then r == []
      else ReadParametersSection(r) == Some(AsciiPairs(b.parameters))
  {
    if b.parameters == [] {
      ReadPairOf(COMMAND_JSON_KEY, b.cid, []);
      assert FormatCommand(b) == Kv(COMMAND_JSON_KEY, b.cid) + [];
    } else {
      ReadPairOf(COMMAND_JSON_KEY, b.cid, ", " + Kd(COMMAND_PARAMETERS_JSON_KEY, FormatParameters(b.parameters)));
      ReadParametersSectionOf(b.parameters);
    }
  }

  /**
   * A binding line is read back as the binding: its key sequence, its command
   * id and its parameters (with non-ASCII characters as '?').
   */
  lemma BindingLineRoundTrip(b: KbaBinding)
    requires '\'' !in b.keySequence && '\'' !in b.cid
    ensures ReadBindingLine(BindingLine(b)) == Some(KbaBinding(b.keySequence, b.cid, AsciiPairs(b.parameters)))
  {
    var c := FormatCommand(b);
    var r1 := ", " + c;
    var body := Kv(KEYS_JSON_KEY, b.keySequence) + r1;
    BindingLineParts(b);
    SplitFrame("      {", body, "},");
    ReadPairOf(KEYS_JSON_KEY, b.keySequence, r1);
    SplitPrefix(", ", c);
    ReadCommandOf(b);
  }

  lemma BindingLineParts(b: KbaBinding)
    ensures BindingLine(b) == "      {" + (Kv(KEYS_JSON_KEY, b.keySequence) + (", " + FormatCommand(b))) + "},"
  {
    IndentValues();
  }
}
