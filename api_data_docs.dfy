/**
 * `_markdown_to_html`, the small Markdown converter of the `/docs` route:
 * a loop over the lines with three flags (inside a code fence, inside a
 * table, inside a list) that appends HTML lines to an output list, closes
 * what is still open at the end, and joins the list with '\n'.
 *
 * Each appended line is modelled as a `Piece`, the element it stands for;
 * `Html` gives its exact text. The inline formatter `_inline` (regular
 * expressions over the escaped text) is a parameter.
 */
module WebDocs {
  import opened Common

  // ---------------------------------------------------------------------
  // The output
  // ---------------------------------------------------------------------

  /** What one appended output line stands for. */
  datatype Piece =
    | CodeOpen | CodeClose | CodeLine(text: string)
    | TableOpen | HeadOpen | HeadCell(cell: string) | HeadClose
    | RowOpen | BodyCell(cell: string) | RowClose | TableClose
    | ListOpen(ordered: bool) | Item(text: string) | ListClose
    | Heading(level: nat, text: string)
    | Rule
    | Para(text: string)

  /** `html.escape(s)`: the five characters HTML gives a meaning to, as entities. */
  function Escape(s: string): (r: string)
    ensures '<' !in r && '>' !in r && '"' !in r && '\'' !in r
    ensures |r| >= |s|
  {
    if s == [] then ""
    else EscapeChar(s[0]) + Escape(s[1..])
  }

  function EscapeChar(c: char): (r: string)
    ensures '<' !in r && '>' !in r && '"' !in r && '\'' !in r && |r| >= 1
  {
    if c == '&' then "&amp;"
    else if c == '<' then "&lt;"
    else if c == '>' then "&gt;"
    else if c == '"' then "&quot;"
    else if c == '\'' then "&#x27;"
    else [c]
  }

  /** A text without any of the five characters is escaped as itself. */
  lemma {:induction false} EscapeIdentity(s: string)
    requires forall i :: 0 <= i < |s| ==> s[i] !in {'&', '<', '>', '"', '\''}
    ensures Escape(s) == s
  {
    if s != [] {
      EscapeIdentity(s[1..]);
      assert [s[0]] + s[1..] == s;
    }
  }

  /** The class of a heading of each level. */
  function HeadingClass(level: nat): string
  {
    match level
    case 1 => "text-xl font-bold mt-8 mb-3 text-gray-100"
    case 2 => "text-lg font-bold mt-6 mb-2 text-gray-200"
    case 3 => "text-base font-semibold mt-4 mb-2 text-gray-300"
    case 4 => "text-sm font-semibold mt-3 mb-1 text-gray-400"
    case 5 => "text-sm font-medium text-gray-400"
    case _ => "text-xs font-medium text-gray-500"
  }

  /** The text appended for a piece. */
  function Html(p: Piece, inline: string -> string): string
  {
    match p
    case CodeOpen => "<pre class=\"bg-gray-800 rounded p-3 overflow-x-auto my-3 text-xs\"><code class=\"text-gray-300\">"
    case CodeClose => "</code></pre>"
    case CodeLine(t) => Escape(t)
    case TableOpen => "<div class=\"overflow-x-auto my-3\"><table class=\"w-full text-sm\">"
    case HeadOpen => "<thead><tr class=\"border-b border-gray-700 text-gray-400\">"
    case HeadCell(c) => "<th class=\"text-left py-1.5 px-2 text-xs\">" + inline(c) + "</th>"
    case HeadClose => "</tr></thead><tbody>"
    case RowOpen => "<tr class=\"border-b border-gray-800/50\">"
    case BodyCell(c) => "<td class=\"py-1 px-2 text-xs text-gray-400\">" + inline(c) + "</td>"
    case RowClose => "</tr>"
    case TableClose => "</tbody></table></div>"
    case ListOpen(ordered) =>
      if ordered then "<ul class=\"list-decimal list-inside space-y-1 my-2 text-sm text-gray-400\">"
      else "<ul class=\"list-disc list-inside space-y-1 my-2 text-sm text-gray-400\">"
    case Item(t) => "<li>" + inline(t) + "</li>"
    case ListClose => "</ul>"
    case Heading(l, t) =>
      var d := [(('0' as int) + l % 10) as char];
      "<h" + d + " class=\"" + HeadingClass(l) + "\">" + inline(t) + "</h" + d + ">"
    case Rule => "<hr class=\"border-gray-800 my-4\">"
    case Para(t) => "<p class=\"text-sm text-gray-400 my-1.5\">" + inline(t) + "</p>"
  }

  /** `Html` with the inline formatter fixed. */
  function Renderer(inline: string -> string): Piece -> string
  {
    p => Html(p, inline)
  }

  /** `f` applied to each element, in order. */
  function MapSeq<T, U>(xs: seq<T>, f: T -> U): (r: seq<U>)
    ensures |r| == |xs| && forall i :: 0 <= i < |xs| ==> r[i] == f(xs[i])
  {
    if xs == [] then [] else MapSeq(xs[..|xs| - 1], f) + [f(xs[|xs| - 1])]
  }

  lemma MapAppend<T, U>(xs: seq<T>, ys: seq<T>, f: T -> U)
    ensures MapSeq(xs + ys, f) == MapSeq(xs, f) + MapSeq(ys, f)
  {
  }

  /** The texts of the pieces, in order. */
  function Texts(ps: seq<Piece>, inline: string -> string): seq<string>
  {
    MapSeq(ps, Renderer(inline))
  }

  // ---------------------------------------------------------------------
  // Reading one line
  // ---------------------------------------------------------------------

  /** The three flags of the loop. */
  datatype Mode = Mode(inCode: bool, inTable: bool, inList: bool)

  const Start := Mode(false, false, false)

  /** The number of '#' a text starts with. */
  function LeadingHashes(s: string): (r: nat)
    ensures r <= |s| && forall i :: 0 <= i < r ==> s[i] == '#'
    ensures r < |s| ==> s[r] != '#'
  {
    if s != [] && s[0] == '#' then 1 + LeadingHashes(s[1..]) else 0
  }

  /** The cells of a table row: `[c.strip() for c in s.split("|")[1:-1]]`. */
  function Cells(s: string): (r: seq<string>)
  {
    var parts := Split(s, '|');
    var inner := if |parts| >= 2 then parts[1..|parts| - 1] else [];
    seq(|inner|, i requires 0 <= i < |inner| => Strip(inner[i]))
  }

  /** A separator row: every cell made of '-' and ':' only. */
  predicate Separator(cells: seq<string>)
  {
    forall i, j :: 0 <= i < |cells| && 0 <= j < |cells[i]| ==> cells[i][j] == '-' || cells[i][j] == ':'
  }

  /** The length of a leading `\d+\.\s`, if the text starts with one. */
  function OrderedPrefix(s: string): (r: Option<nat>)
    ensures r.Some? ==> 3 <= r.value <= |s|
                        && (forall i :: 0 <= i < r.value - 2 ==> IsDigit(s[i]))
                        && s[r.value - 2] == '.' && IsSpace(s[r.value - 1])
  {
    var d := Digits(s);
    if d >= 1 && d + 2 <= |s| && s[d] == '.' && IsSpace(s[d + 1]) then Some(d + 2) else None
  }

  function Digits(s: string): (r: nat)
    ensures r <= |s| && forall i :: 0 <= i < r ==> IsDigit(s[i])
  {
    if s != [] && IsDigit(s[0]) then 1 + Digits(s[1..]) else 0
  }

  /** What a stripped line is, outside a code fence, tested in the loop's order. */
  datatype Kind =
    | Fence
    | Blank
    | Header(level: nat, text: string)
    | HRule
    | Divider
    | TableRow(cells: seq<string>)
    | Bullet(text: string)
    | Numbered(text: string)
    | Plain(text: string)

  function KindOf(s: string): (k: Kind)
    ensures k.Fence? <==> StartsWith(s, "```")
    ensures k.Blank? <==> s == ""
  {
    if StartsWith(s, "```") then Fence
    else if s == "" then Blank
    else if StartsWith(s, "#") then
      var n := LeadingHashes(s);
      var level := if n < 6 then n else 6;
      Header(level, Strip(s[level..]))
    else if s == "---" || s == "***" || s == "___" then HRule
    else if StartsWith(s, "|") then
      var cells := Cells(s);
      if Separator(cells) then Divider else TableRow(cells)
    else if StartsWith(s, "- ") || StartsWith(s, "* ") then Bullet(s[2..])
    else if OrderedPrefix(s).Some? then Numbered(s[OrderedPrefix(s).value..])
    else Plain(s)
  }

  /** The pieces a list item appends, and the list it leaves open. */
  function ListItem(m: Mode, ordered: bool, text: string): (seq<Piece>, Mode)
  {
    ((if m.inList then [] else [ListOpen(ordered)]) + [Item(text)], m.(inList := true))
  }

  /** A header cell and a body cell, as functions of the cell's text. */
  function AsHead(c: string): Piece { HeadCell(c) }

  function AsBody(c: string): Piece { BodyCell(c) }

  /** What a line of kind `k` appends outside a code fence, and the flags after it. */
  function Act(m: Mode, k: Kind): (seq<Piece>, Mode)
  {
    match k
    case Fence => ([CodeOpen], m.(inCode := true))
    case Blank =>
      ((if m.inTable then [TableClose] else []) + (if m.inList then [ListClose] else []),
       m.(inTable := false, inList := false))
    case Header(level, text) => ([Heading(level, text)], m)
    case HRule => ([Rule], m)
    case Divider => ([], m)
    case TableRow(cells) =>
      if !m.inTable then
        ([TableOpen, HeadOpen] + MapSeq(cells, AsHead) + [HeadClose], m.(inTable := true))
      else ([RowOpen] + MapSeq(cells, AsBody) + [RowClose], m)
    case Bullet(text) => ListItem(m, false, text)
    case Numbered(text) => ListItem(m, true, text)
    case Plain(text) => ((if m.inList then [ListClose] else []) + [Para(text)], m.(inList := false))
  }

  /** One pass of the loop's body: the pieces appended for a line, and the flags after it. */
  function Step(m: Mode, line: string): (seq<Piece>, Mode)
  {
    var k := KindOf(Strip(line));
    if k.Fence? && m.inCode then ([CodeClose], m.(inCode := false))
    else if m.inCode then ([CodeLine(line)], m)
    else Act(m, k)
  }

  /** The loop over the lines: the pieces appended so far, and the flags. */
  function Run(lines: seq<string>): (seq<Piece>, Mode)
  {
    if lines == [] then ([], Start)
    else
      var (ps, m) := Run(lines[..|lines| - 1]);
      var (qs, m') := Step(m, lines[|lines| - 1]);
      (ps + qs, m')
  }

  /** What is still open when the lines run out, closed in the loop's order. */
  function Closing(m: Mode): seq<Piece>
  {
    (if m.inCode then [CodeClose] else []) + (if m.inTable then [TableClose] else [])
    + (if m.inList then [ListClose] else [])
  }

  /** All the pieces of a document. */
  function Document(md: string): seq<Piece>
  {
    var (ps, m) := Run(Split(md, '\n'));
    ps + Closing(m)
  }

  /** `_markdown_to_html(md)`. */
  method MarkdownToHtml(md: string, inline: string -> string) returns (html: string)
    ensures html == Join(Texts(Document(md), inline), "\n")
  {
    var lines := Split(md, '\n');
    var out: seq<string> := [];
    var m := Start;
    for i := 0 to |lines|
      invariant out == Texts(Run(lines[..i]).0, inline) && m == Run(lines[..i]).1
    {
      assert lines[..i + 1][..i] == lines[..i];
      var (ps, m') := Step(m, lines[i]);
      MapAppend(Run(lines[..i]).0, ps, Renderer(inline));
      out := out + Texts(ps, inline);
      m := m';
    }
    assert lines[..|lines|] == lines;
    MapAppend(Run(lines).0, Closing(m), Renderer(inline));
    out := out + Texts(Closing(m), inline);
    html := Join(out, "\n");
  }

  // ---------------------------------------------------------------------
  // Blocks open and close in pairs
  // ---------------------------------------------------------------------

  datatype Block = Code | Table | List

  /** +1 for a piece that opens a block of kind `b`, -1 for one that closes it, 0 otherwise. */
  function Delta(p: Piece, b: Block): int
  {
    match b
    case Code => if p.CodeOpen? then 1 else if p.CodeClose? then -1 else 0
    case Table => if p.TableOpen? then 1 else if p.TableClose? then -1 else 0
    case List => if p.ListOpen? then 1 else if p.ListClose? then -1 else 0
  }

  /** Openings of blocks of kind `b` minus their closings. */
  function Net(ps: seq<Piece>, b: Block): int
  {
    if ps == [] then 0 else Net(ps[..|ps| - 1], b) + Delta(ps[|ps| - 1], b)
  }

  lemma {:induction false} NetAppend(ps: seq<Piece>, qs: seq<Piece>, b: Block)
    ensures Net(ps + qs, b) == Net(ps, b) + Net(qs, b)
  {
    if qs != [] {
      NetAppend(ps, qs[..|qs| - 1], b);
      assert (ps + qs)[..|ps + qs| - 1] == ps + qs[..|qs| - 1];
    } else {
      assert ps + qs == ps;
    }
  }

  lemma NetOne(p: Piece, b: Block)
    ensures Net([p], b) == Delta(p, b)
  {
    assert [p][..0] == [];
  }

  /** Cells neither open nor close anything. */
  lemma {:induction false} NetCells(cells: seq<string>, f: string -> Piece, b: Block)
    requires forall c :: Delta(f(c), b) == 0
    ensures Net(MapSeq(cells, f), b) == 0
  {
    if cells != [] {
      NetCells(cells[..|cells| - 1], f, b);
    }
  }

  /** 1 when the flags say a block of kind `b` is open, else 0. */
  function Flag(m: Mode, b: Block): nat
  {
    match b
    case Code => if m.inCode then 1 else 0
    case Table => if m.inTable then 1 else 0
    case List => if m.inList then 1 else 0
  }

  /** The pieces of one pass move the count of open blocks just as the flags move. */
  predicate Tracks(m: Mode, ps: seq<Piece>, m': Mode, b: Block)
  {
    Flag(m, b) + Net(ps, b) == Flag(m', b)
  }

  lemma OptionalThenOne(o: seq<Piece>, p: Piece, b: Block)
    requires |o| <= 1
    ensures Net(o + [p], b) == (if o == [] then 0 else Delta(o[0], b)) + Delta(p, b)
  {
    NetAppend(o, [p], b);
    NetOne(p, b);
    if o != [] {
      assert o == [o[0]];
      NetOne(o[0], b);
    }
  }

  lemma BlankTracks(m: Mode, b: Block)
    ensures var (ps, m') := Act(m, Blank);
            Tracks(m, ps, m', b)
  {
    var t: seq<Piece> := if m.inTable then [TableClose] else [];
    var l: seq<Piece> := if m.inList then [ListClose] else [];
    NetAppend(t, l, b);
    NetOne(TableClose, b);
    NetOne(ListClose, b);
  }

  lemma HeadTracks(m: Mode, cells: seq<string>, b: Block)
    ensures Net([TableOpen, HeadOpen] + MapSeq(cells, AsHead) + [HeadClose], b) == Delta(TableOpen, b)
  {
    var heads := MapSeq(cells, AsHead);
    var x := [TableOpen, HeadOpen];
    assert Net(heads, b) == 0 by { NetCells(cells, AsHead, b); }
    assert Net(x, b) == Delta(TableOpen, b) by {
      assert x[..1] == [TableOpen];
      NetOne(TableOpen, b);
    }
    assert Net(x + heads, b) == Delta(TableOpen, b) by { NetAppend(x, heads, b); }
    assert Net(x + heads + [HeadClose], b) == Delta(TableOpen, b) by {
      NetAppend(x + heads, [HeadClose], b);
      NetOne(HeadClose, b);
    }
  }

  lemma BodyTracks(cells: seq<string>, b: Block)
    ensures Net([RowOpen] + MapSeq(cells, AsBody) + [RowClose], b) == 0
  {
    var body := MapSeq(cells, AsBody);
    var x := [RowOpen] + body;
    assert Net(body, b) == 0 by { NetCells(cells, AsBody, b); }
    assert Net(x, b) == 0 by {
      NetAppend([RowOpen], body, b);
      NetOne(RowOpen, b);
    }
    assert Net(x + [RowClose], b) == 0 by {
      NetAppend(x, [RowClose], b);
      NetOne(RowClose, b);
    }
  }

  lemma RowTracks(m: Mode, cells: seq<string>, b: Block)
    ensures var (ps, m') := Act(m, TableRow(cells));
            Tracks(m, ps, m', b)
  {
    if !m.inTable {
      HeadTracks(m, cells, b);
    } else {
      BodyTracks(cells, b);
    }
  }

  lemma ListTracks(m: Mode, ordered: bool, text: string, b: Block)
    ensures var (ps, m') := ListItem(m, ordered, text);
            Tracks(m, ps, m', b)
  {
    OptionalThenOne(if m.inList then [] else [ListOpen(ordered)], Item(text), b);
  }

  lemma PlainTracks(m: Mode, text: string, b: Block)
    ensures var (ps, m') := Act(m, Plain(text));
            Tracks(m, ps, m', b)
  {
    OptionalThenOne(if m.inList then [ListClose] else [], Para(text), b);
  }

  /** Outside a fence, a line opens a block only when none is open, and closes one only when one is. */
  lemma ActTracks(m: Mode, k: Kind, b: Block)
    requires !m.inCode
    ensures var (ps, m') := Act(m, k);
            Tracks(m, ps, m', b)
  {
    match k
    case Fence => NetOne(CodeOpen, b);
    case Blank => BlankTracks(m, b);
    case Header(level, text) => NetOne(Heading(level, text), b);
    case HRule => NetOne(Rule, b);
    case Divider =>
    case TableRow(cells) => RowTracks(m, cells, b);
    case Bullet(text) => ListTracks(m, false, text, b);
    case Numbered(text) => ListTracks(m, true, text, b);
    case Plain(text) => PlainTracks(m, text, b);
  }

  /** One pass of the loop keeps the count of open blocks in step with the flags. */
  lemma StepTracks(m: Mode, line: string, b: Block)
    ensures var (ps, m') := Step(m, line);
            Tracks(m, ps, m', b)
  {
    var k := KindOf(Strip(line));
    if k.Fence? && m.inCode {
      NetOne(CodeClose, b);
    } else if m.inCode {
      NetOne(CodeLine(line), b);
    } else {
      ActTracks(m, k, b);
    }
  }

  /** After any lines, the blocks of each kind left open are exactly those the flags record. */
  lemma {:induction false} RunTracks(lines: seq<string>, b: Block)
    ensures var (ps, m) := Run(lines);
            Net(ps, b) == Flag(m, b)
  {
    if lines != [] {
      var init := lines[..|lines| - 1];
      RunTracks(init, b);
      var (ps, m) := Run(init);
      var (qs, m') := Step(m, lines[|lines| - 1]);
      StepTracks(m, lines[|lines| - 1], b);
      NetAppend(ps, qs, b);
    }
  }

  /** The final closes close exactly what the flags say is open. */
  lemma ClosingNet(m: Mode, b: Block)
    ensures Net(Closing(m), b) + Flag(m, b) == 0
  {
    var c: seq<Piece> := if m.inCode then [CodeClose] else [];
    var t: seq<Piece> := if m.inTable then [TableClose] else [];
    var l: seq<Piece> := if m.inList then [ListClose] else [];
    NetOne(CodeClose, b);
    NetOne(TableClose, b);
    NetOne(ListClose, b);
    NetAppend(c, t, b);
    NetAppend(c + t, l, b);
  }

  /** Every code, table and list block the output opens, it also closes. */
  lemma DocumentBalanced(md: string, b: Block)
    ensures Net(Document(md), b) == 0
  {
    var (ps, m) := Run(Split(md, '\n'));
    RunTracks(Split(md, '\n'), b);
    ClosingNet(m, b);
    NetAppend(ps, Closing(m), b);
  }

  // ---------------------------------------------------------------------
  // The line kinds
  // ---------------------------------------------------------------------

  /** Outside a code fence, a blank line closes an open table and an open list, and nothing else. */
  lemma BlankCloses(m: Mode, line: string)
    requires !m.inCode && Strip(line) == ""
    ensures Step(m, line).1 == Mode(false, false, false)
    ensures Step(m, line).0 == (if m.inTable then [TableClose] else []) + (if m.inList then [ListClose] else [])
  {
    assert KindOf(Strip(line)) == Blank;
  }

  /** Inside a code fence, a line other than a fence is appended escaped, and nothing else. */
  lemma CodeLinesEscaped(m: Mode, line: string, inline: string -> string)
    requires m.inCode && !StartsWith(Strip(line), "```")
    ensures Step(m, line) == ([CodeLine(line)], m)
    ensures Texts(Step(m, line).0, inline) == [Escape(line)]
  {
    assert !KindOf(Strip(line)).Fence?;
    assert Texts([CodeLine(line)], inline)[0] == Html(CodeLine(line), inline);
  }

  /** A heading's level is its number of leading '#', at most 6, and its text follows them. */
  lemma HeadingLevel(s: string)
    requires StartsWith(s, "#") && !StartsWith(s, "```")
    ensures var n := LeadingHashes(s);
            var k := KindOf(s);
            k.Header? && 1 <= k.level <= 6 && k.level == (if n < 6 then n else 6)
            && k.text == Strip(s[k.level..])
  {
    assert s != "";
  }

  /** Outside a code fence, a table separator row appends nothing and changes no flag. */
  lemma SeparatorDropped(m: Mode, line: string)
    requires var s := Strip(line);
             !m.inCode && StartsWith(s, "|") && Separator(Cells(s))
    ensures Step(m, line) == ([], m)
  {
    var s := Strip(line);
    assert s[0] == '|';
    assert s != "---" && s != "***" && s != "___" && !StartsWith(s, "```") && !StartsWith(s, "#");
  }

  /** A table row appends one cell per column, as the header when no table is open, else as a body row. */
  lemma RowCells(m: Mode, line: string)
    requires var s := Strip(line);
             !m.inCode && StartsWith(s, "|") && !Separator(Cells(s))
    ensures var (ps, m') := Step(m, line);
            var cells := Cells(Strip(line));
            var n := |cells|;
            m'.inTable && m'.inList == m.inList && !m'.inCode
            && (m.inTable ==>
                  ps == [RowOpen] + MapSeq(cells, AsBody) + [RowClose])
            && (!m.inTable ==>
                  ps == [TableOpen, HeadOpen] + MapSeq(cells, AsHead) + [HeadClose])
  {
    var s := Strip(line);
    assert s[0] == '|';
    assert s != "---" && s != "***" && s != "___" && !StartsWith(s, "```") && !StartsWith(s, "#");
  }
}
