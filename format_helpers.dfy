/**
 * The small string builders of the formatter: indentation, single quoting
 * and the key/value snippets the document is assembled from.
 */
module FormatHelpers {

  /** n levels of indentation, two spaces each: the value of i(n). */
  function Indent(n: nat): (r: string)
    ensures |r| == 2 * n
  {
    if n == 0 then "" else Indent(n - 1) + "  "
  }

  /** i(n): appends two spaces n times to an empty builder; nothing for n <= 0. */
  method I(indentNumber: int) returns (r: string)
    ensures indentNumber <= 0 ==> r == ""
    ensures indentNumber > 0 ==> r == Indent(indentNumber)
  {
    r := "";
    var i := 0;
    while i < indentNumber
      invariant if indentNumber > 0 then 0 <= i <= indentNumber else i == 0
      invariant r == Indent(i)
    {
      r := r + "  ";
      i := i + 1;
    }
  }

  lemma IndentValues()
    ensures Indent(1) == "  " && Indent(2) == "    " && Indent(3) == "      "
  {
  }

  /** Indentation is spaces only. */
  lemma {:induction false} IndentIsSpaces(n: nat)
    ensures forall j :: 0 <= j < |Indent(n)| ==> Indent(n)[j] == ' '
  {
    if n > 0 {
      IndentIsSpaces(n - 1);
    }
  }

  /** Wraps s in single quotes; nothing inside is escaped. */
  function Quote(s: string): string
  {
    "'" + s + "'"
  }

  /** s sits unchanged between two quotes. */
  lemma QuoteShape(s: string)
    ensures |Quote(s)| == |s| + 2
    ensures Quote(s)[0] == '\'' && Quote(s)[|s| + 1] == '\''
    ensures Quote(s)[1..|s| + 1] == s
  {
  }

  /** key, then unquoted data. */
  function Kd(key: string, data: string): string {
    Quote(key) + " : " + data
  }

  function Kv(key: string, value: string): string {
    Quote(key) + " : " + Quote(value)
  }

  function Kvn(key: string, value: string): string {
    Quote(key) + " : " + Quote(value) + "\n"
  }

  function Kvcs(key: string, value: string): string {
    Quote(key) + " : " + Quote(value) + ", "
  }

  function Kvcn(key: string, value: string): string {
    Quote(key) + " : " + Quote(value) + ",\n"
  }

  /** The kv* builders are one quoted pair followed by nothing, a newline, ", " or ",\n". */
  lemma PairShapes(key: string, value: string)
    ensures Kv(key, value) == Kd(key, Quote(value))
    ensures Kvn(key, value) == Kv(key, value) + "\n"
    ensures Kvcs(key, value) == Kv(key, value) + ", "
    ensures Kvcn(key, value) == Kv(key, value) + ",\n"
    ensures |Kv(key, value)| == |key| + |value| + 7
  {
  }
}
