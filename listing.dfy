/**
 * The text that `roleKeys` and `roleTypes` (command/command.go) build in a
 * `bytes.Buffer`: a header line, then one tab-indented line per value, the
 * whole wrapped in a Markdown code fence. The parser below is the inverse of
 * the printer and shows that the reply determines the listed values.
 */
module Listing {
  import opened Wrappers

  /** One value as `fmt.Sprintf("\t%s\n", v)` renders it. */
  function Line(v: string): string
  {
    "\t" + v + "\n"
  }

  /** The lines for all values, in order. */
  function Lines(values: seq<string>): string
  {
    if values == [] then "" else Line(values[0]) + Lines(values[1..])
  }

  /** The fence placed around the buffer: `fmt.Sprintf("```%s```\n", body)`. */
  function Fence(body: string): string
  {
    "```" + body + "```\n"
  }

  /** The full text of a successful listing under `header`. */
  function Render(header: string, values: seq<string>): string
  {
    Fence(header + Lines(values))
  }

  /** True when no value would break its own line. */
  predicate SingleLine(values: seq<string>)
  {
    forall i | 0 <= i < |values| :: '\n' !in values[i]
  }

  lemma {:induction false} LinesSnoc(values: seq<string>, v: string)
    ensures Lines(values + [v]) == Lines(values) + Line(v)
  {
    if values == [] {
      assert values + [v] == [v];
    } else {
      LinesSnoc(values[1..], v);
      assert (values + [v])[1..] == values[1..] + [v];
    }
  }

  /** The buffer-filling loop of `roleKeys`/`roleTypes`. */
  method BuildBody(header: string, values: seq<string>) returns (body: string)
    ensures body == header + Lines(values)
  {
    body := header;
    for i := 0 to |values|
      invariant body == header + Lines(values[..i])
    {
      LinesSnoc(values[..i], values[i]);
      assert values[..i + 1] == values[..i] + [values[i]];
      body := body + Line(values[i]);
    }
    assert values[..|values|] == values;
  }

  /** Position of the first `c` in `s`. */
  function IndexOf(s: string, c: char): (i: nat)
    requires c in s
    ensures i < |s| && s[i] == c && c !in s[..i]
  {
    if s[0] == c then 0
    else
      assert s == [s[0]] + s[1..];
      var j := IndexOf(s[1..], c);
      assert s[..j + 1] == [s[0]] + s[1..][..j];
      j + 1
  }

  /** Reads tab-indented lines back into values; None when `s` is not such text. */
  function ParseLines(s: string): (r: Option<seq<string>>)
    ensures r.Some? ==> Lines(r.value) == s && SingleLine(r.value)
    decreases |s|
  {
    if s == [] then Some([])
    else if s[0] != '\t' || '\n' !in s then None
    else
      var i := IndexOf(s, '\n');
      match ParseLines(s[i + 1..])
      case None => None
      case Some(rest) =>
        assert s == "\t" + s[1..i] + "\n" + s[i + 1..];
        assert ([s[1..i]] + rest)[1..] == rest;
        assert s[..i] == [s[0]] + s[1..i];
        Some([s[1..i]] + rest)
  }

  /** Reads a fenced listing under `header` back into its values. */
  function ParseRendered(header: string, text: string): (r: Option<seq<string>>)
    ensures r.Some? ==> Render(header, r.value) == text && SingleLine(r.value)
  {
    var n := |header|;
    if |text| < n + 7 || text[..3] != "```" || text[3..n + 3] != header
       || text[|text| - 4..] != "```\n"
    then None
    else
      var body := text[n + 3..|text| - 4];
      match ParseLines(body)
      case None => None
      case Some(values) =>
        FenceSplit(header, text);
        Some(values)
  }

  /** A text with the fence and header in place is the fence around header and body. */
  lemma FenceSplit(header: string, text: string)
    requires |text| >= |header| + 7
    requires text[..3] == "```" && text[3..|header| + 3] == header && text[|text| - 4..] == "```\n"
    ensures text == Fence(header + text[|header| + 3..|text| - 4])
  {
    var n := |header|;
    assert text == text[..3] + text[3..n + 3] + text[n + 3..|text| - 4] + text[|text| - 4..];
  }

  lemma {:induction false} ParseLinesOfLines(values: seq<string>)
    requires SingleLine(values)
    ensures ParseLines(Lines(values)) == Some(values)
  {
    if values != [] {
      var v, rest := values[0], values[1..];
      var s := Lines(values);
      assert s == "\t" + v + "\n" + Lines(rest);
      assert s[|v| + 1] == '\n';
      assert s[..|v| + 1] == "\t" + v;
      assert '\n' !in s[..|v| + 1];
      var i := IndexOf(s, '\n');
      assert i == |v| + 1;
      assert s[1..i] == v;
      assert s[i + 1..] == Lines(rest);
      ParseLinesOfLines(rest);
      assert [v] + rest == values;
    }
  }

  /** The rendered listing of single-line values parses back to exactly those values. */
  lemma {:induction false} ParseRender(header: string, values: seq<string>)
    requires SingleLine(values)
    ensures ParseRendered(header, Render(header, values)) == Some(values)
  {
    var text := Render(header, values);
    var n := |header|;
    assert text == "```" + header + Lines(values) + "```\n";
    assert text[..3] == "```";
    assert text[3..n + 3] == header;
    assert text[|text| - 4..] == "```\n";
    assert text[n + 3..|text| - 4] == Lines(values);
    ParseLinesOfLines(values);
  }
}
