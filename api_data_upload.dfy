/**
 * The upload route: the accepted extensions, the normalisation of the
 * spreadsheet's columns (stripped names, known aliases renamed, a position
 * column added), the issue it reports, and `_update_env`, which points
 * INPUT_FILE at the saved copy.
 *
 * Reading and writing spreadsheets and files is I/O: the sheet as read (or
 * the error reading it), the saved file's name and the `.env` lines are
 * parameters, and the new `.env` lines are a result.
 */
module WebUpload {
  import opened Common
  import opened Frames
  import opened Settings
  import opened WebConfig

  // ---------------------------------------------------------------------
  // The extension
  // ---------------------------------------------------------------------

  /** The last component of a path: the text after its last '/'. */
  function BaseName(p: string): (r: string)
    ensures '/' !in r && EndsWith(p, r)
    ensures |r| < |p| ==> p[|p| - |r| - 1] == '/'
  {
    if |p| == 0 || p[|p| - 1] == '/' then ""
    else
      var r := BaseName(p[..|p| - 1]);
      BaseNameStep(p, r);
      r + [p[|p| - 1]]
  }

  /** The base name grows by the last character when that is not a '/'. */
  lemma BaseNameStep(p: string, r: string)
    requires |p| > 0 && p[|p| - 1] != '/'
    requires '/' !in r && EndsWith(p[..|p| - 1], r)
    requires |r| < |p| - 1 ==> p[..|p| - 1][|p| - 1 - |r| - 1] == '/'
    ensures var s := r + [p[|p| - 1]];
            '/' !in s && EndsWith(p, s) && (|s| < |p| ==> p[|p| - |s| - 1] == '/')
  {
    var init := p[..|p| - 1];
    assert p == init + [p[|p| - 1]];
    assert init[|init| - |r|..] == r;
    assert p[|p| - |r| - 1..] == init[|init| - |r|..] + [p[|p| - 1]];
  }

  /** The place of the last '.' of a text, if any. */
  function LastDot(s: string): (r: Option<nat>)
    ensures r.None? <==> '.' !in s
    ensures r.Some? ==> r.value < |s| && s[r.value] == '.' && '.' !in s[r.value + 1..]
  {
    if |s| == 0 then None
    else if s[|s| - 1] == '.' then Some(|s| - 1)
    else
      var r := LastDot(s[..|s| - 1]);
      if r.Some? then
        assert s[r.value + 1..] == s[..|s| - 1][r.value + 1..] + [s[|s| - 1]];
        r
      else r
  }

  /**
   * `os.path.splitext(name)[1]`: the base name from its last '.', unless
   * nothing but dots precede that '.' (a hidden file has no extension).
   */
  function Ext(name: string): (r: string)
    ensures r == "" || (r[0] == '.' && '.' !in r[1..] && '/' !in r && EndsWith(name, r))
  {
    var b := BaseName(name);
    var d := LastDot(b);
    if d.Some? && !AllDots(b[..d.value]) then
      SuffixFrom(name, b, d.value);
      b[d.value..]
    else ""
  }

  predicate AllDots(s: string)
  {
    forall i :: 0 <= i < |s| ==> s[i] == '.'
  }

  /** A suffix of a suffix is a suffix; its tail is what follows its first character. */
  lemma SuffixFrom(name: string, b: string, d: nat)
    requires EndsWith(name, b) && '/' !in b && d < |b|
    ensures EndsWith(name, b[d..]) && '/' !in b[d..] && b[d..][0] == b[d] && b[d..][1..] == b[d + 1..]
  {
    assert name[|name| - |b[d..]|..] == b[d..];
    assert forall c :: c in b[d..] ==> c in b;
  }

  lemma {:induction false} BaseNameNoSlash(p: string)
    requires '/' !in p
    ensures BaseName(p) == p
  {
    if |p| > 0 {
      BaseNameNoSlash(p[..|p| - 1]);
    }
  }

  lemma LastDotAt(s: string, k: nat)
    requires k < |s| && s[k] == '.' && '.' !in s[k + 1..]
    ensures LastDot(s) == Some(k)
  {
  }

  /** The upload takes `.xlsx` and `.xls` files, in any letter case. */
  predicate Accepted(filename: string)
  {
    Lower(Ext(filename)) in {".xlsx", ".xls"}
  }

  /** The extension is compared in lower case: an upper-case one is accepted. */
  lemma UpperCaseAccepted()
    ensures Accepted("base.XLS")
  {
    assert Ext("base.XLS") == ".XLS" by {
      ExtOfBaseXls();
    }
    assert Lower(".XLS") == ".xls" by {
      LowerXls();
    }
  }

  lemma ExtOfBaseXls()
    ensures Ext("base.XLS") == ".XLS"
  {
    var s := "base.XLS";
    assert '/' !in s;
    assert '.' !in s[5..] by { assert s[5..] == "XLS"; }
    assert !AllDots(s[..4]) by { assert s[..4][0] == 'b'; }
    BaseNameNoSlash(s);
    LastDotAt(s, 4);
    assert s[4..] == ".XLS";
  }

  lemma LowerXls()
    ensures Lower(".XLS") == ".xls"
  {
    assert Lower(".XLS") == [LowerChar('.'), LowerChar('X'), LowerChar('L'), LowerChar('S')];
  }

  /** A hidden file named like an extension has none, so it is refused. */
  lemma HiddenFileRefused()
    ensures !Accepted(".xlsx")
  {
    var s := ".xlsx";
    BaseNameNoSlash(s);
    LastDotAt(s, 0);
  }

  // ---------------------------------------------------------------------
  // The columns
  // ---------------------------------------------------------------------

  /** A spreadsheet as read: its header, in order, and its rows, positionally. */
  datatype Grid = Grid(header: seq<string>, rows: seq<seq<Cell>>)

  /** `[c.strip() for c in df.columns]`. */
  function Stripped(header: seq<string>): (r: seq<string>)
    ensures |r| == |header| && forall i :: 0 <= i < |header| ==> r[i] == Strip(header[i])
  {
    seq(|header|, i requires 0 <= i < |header| => Strip(header[i]))
  }

  /** Column names that count as a document column or a name column for the issue check, compared exactly. */
  const DocColumns: set<string> := {"nr_documento", "documento", "cpf", "cnpj", "cpf_cnpj"}
  const NameColumns: set<string> := {"nome_estoque", "nome", "nome_parte"}

  /** Names, compared in lower case, renamed to `nr_documento` and to `nome_estoque`. */
  const DocAliases: set<string> := {"documento", "cpf", "cnpj", "cpf_cnpj"}
  const NameAliases: set<string> := {"nome", "nome_parte"}

  const MissingKeyColumns: string := "Planilha precisa ter pelo menos uma coluna de documento (nr_documento) ou nome (nome_estoque)."

  /** The issues reported: one, when no column is named like a document nor like a name. */
  function Issues(cols: seq<string>): (r: seq<string>)
    ensures r == [] || r == [MissingKeyColumns]
    ensures r != [] <==> forall c :: c in cols ==> c !in DocColumns && c !in NameColumns
  {
    if exists c :: c in cols && (c in DocColumns || c in NameColumns) then [] else [MissingKeyColumns]
  }

  /** The new name of a column, if the rename map has one for it. */
  function Target(c: string, cols: seq<string>): Option<string>
  {
    var cl := Lower(Strip(c));
    if cl in NameAliases && "nome_estoque" !in cols then Some("nome_estoque")
    else if cl in DocAliases && "nr_documento" !in cols then Some("nr_documento")
    else None
  }

  /** The loop that builds `rename_map`: each column mapped to its target, when it has one. */
  method RenameMap(cols: seq<string>) returns (m: map<string, string>)
    ensures forall c :: c in m <==> c in cols && Target(c, cols).Some?
    ensures forall c :: c in m ==> m[c] == Target(c, cols).value
  {
    m := map[];
    for i := 0 to |cols|
      invariant forall c :: c in m <==> c in cols[..i] && Target(c, cols).Some?
      invariant forall c :: c in m ==> m[c] == Target(c, cols).value
    {
      assert cols[..i + 1] == cols[..i] + [cols[i]];
      var c := cols[i];
      var cl := Lower(Strip(c));
      if cl in DocAliases && "nr_documento" !in cols {
        m := m[c := "nr_documento"];
      }
      if cl in NameAliases && "nome_estoque" !in cols {
        m := m[c := "nome_estoque"];
      }
    }
    assert cols[..|cols|] == cols;
  }

  /** `df.rename(columns=rename_map)` on the header. */
  function Renamed(cols: seq<string>): (r: seq<string>)
    ensures |r| == |cols|
    ensures forall i :: 0 <= i < |cols| ==> r[i] == (if Target(cols[i], cols).Some? then Target(cols[i], cols).value else cols[i])
  {
    seq(|cols|, i requires 0 <= i < |cols| => if Target(cols[i], cols).Some? then Target(cols[i], cols).value else cols[i])
  }

  /** A column is renamed only to a key column the sheet lacks, and only when its name is an alias of it. */
  lemma RenameOnlyWhenAbsent(cols: seq<string>, i: nat)
    requires i < |cols|
    ensures Renamed(cols)[i] == cols[i]
            || (Renamed(cols)[i] == "nr_documento" && "nr_documento" !in cols && Lower(Strip(cols[i])) in DocAliases)
            || (Renamed(cols)[i] == "nome_estoque" && "nome_estoque" !in cols && Lower(Strip(cols[i])) in NameAliases)
  {
  }

  /** An alias of a key column the sheet lacks is renamed to it. */
  lemma RenameWhenAbsent(cols: seq<string>, i: nat)
    requires i < |cols|
    ensures Lower(Strip(cols[i])) in DocAliases && "nr_documento" !in cols ==> Renamed(cols)[i] == "nr_documento"
    ensures Lower(Strip(cols[i])) in NameAliases && "nome_estoque" !in cols ==> Renamed(cols)[i] == "nome_estoque"
  {
    AliasesDisjoint();
  }

  lemma AliasesDisjoint()
    ensures DocAliases !! NameAliases
  {
    assert "nome" != "cnpj" by { assert "nome"[0] != "cnpj"[0]; }
    assert "nome" !in DocAliases;
    assert "nome_parte" !in DocAliases;
  }

  /**
   * The issue check compares names exactly while the renaming ignores case:
   * a sheet whose only key column is "CPF" is reported as lacking one, and
   * yet that column becomes `nr_documento`.
   */
  lemma IssueDespiteAlias()
    ensures Issues(["CPF"]) == [MissingKeyColumns] && Renamed(["CPF"]) == ["nr_documento"]
  {
    assert Issues(["CPF"]) == [MissingKeyColumns] by {
      assert "CPF" !in DocColumns && "CPF" !in NameColumns;
    }
    assert Target("CPF", ["CPF"]) == Some("nr_documento") by {
      CpfFolds();
      assert "cpf" !in NameAliases && "cpf" in DocAliases;
    }
  }

  lemma CpfFolds()
    ensures Lower(Strip("CPF")) == "cpf"
  {
    var s := "CPF";
    assert !IsSpace(s[0]) && !IsSpace(s[2]);
    StripLeftKeeps(s);
    StripRightKeeps(s);
    assert Lower(s) == [LowerChar('C'), LowerChar('P'), LowerChar('F')];
  }

  /** `df.insert(0, "posicao", range(1, n + 1))` when there is no `posicao` column. */
  function WithPosition(g: Grid): (r: Grid)
    ensures |r.rows| == |g.rows|
    ensures "posicao" in r.header
    ensures "posicao" in g.header ==> r == g
    ensures "posicao" !in g.header ==>
              r.header == ["posicao"] + g.header
              && forall i :: 0 <= i < |g.rows| ==> r.rows[i] == [Int(i + 1)] + g.rows[i]
  {
    if "posicao" in g.header then g
    else Grid(["posicao"] + g.header, seq(|g.rows|, i requires 0 <= i < |g.rows| => [Int(i + 1)] + g.rows[i]))
  }

  /** The sheet as it is saved: names stripped, aliases renamed, a position column ensured. */
  function Normalized(g: Grid): Grid
  {
    WithPosition(Grid(Renamed(Stripped(g.header)), g.rows))
  }

  /** The first 50 rows, missing cells as "". */
  function Preview(g: Grid): (r: seq<seq<Cell>>)
    ensures |r| == if |g.rows| < 50 then |g.rows| else 50
    ensures forall i :: 0 <= i < |r| ==>
              |r[i]| == |g.rows[i]|
              && forall j :: 0 <= j < |r[i]| ==> !r[i][j].Missing? && (g.rows[i][j].Missing? || r[i][j] == g.rows[i][j])
  {
    var n := if |g.rows| < 50 then |g.rows| else 50;
    seq(n, i requires 0 <= i < n => seq(|g.rows[i]|, j requires 0 <= j < |g.rows[i]| => if g.rows[i][j].Missing? then Text("") else g.rows[i][j]))
  }

  // ---------------------------------------------------------------------
  // _update_env
  // ---------------------------------------------------------------------

  /** `line.strip().startswith(key + "=")`. */
  predicate SetsKey(line: string, key: string)
  {
    StartsWith(Strip(line), key + "=")
  }

  /** Every line setting `key` replaced by the new one, the others kept. */
  function Replaced(lines: seq<string>, key: string, value: string): (r: seq<string>)
    ensures |r| == |lines|
  {
    if |lines| == 0 then []
    else
      var last := lines[|lines| - 1];
      Replaced(lines[..|lines| - 1], key, value) + [if SetsKey(last, key) then EnvLineText(key, value) else last]
  }

  lemma {:induction false} ReplacedAt(lines: seq<string>, key: string, value: string, i: nat)
    requires i < |lines|
    ensures Replaced(lines, key, value)[i] == if SetsKey(lines[i], key) then EnvLineText(key, value) else lines[i]
  {
    if i < |lines| - 1 {
      ReplacedAt(lines[..|lines| - 1], key, value, i);
    }
  }

  function Setting(key: string): string -> bool
  {
    (line: string) => SetsKey(line, key)
  }

  /** Whether some line sets `key`: the lines that do are not none. */
  function AnySets(lines: seq<string>, key: string): bool
  {
    Filter(lines, Setting(key)) != []
  }

  lemma AnySetsWitness(lines: seq<string>, key: string)
    ensures AnySets(lines, key) <==> exists l :: l in lines && SetsKey(l, key)
  {
    var f := Filter(lines, Setting(key));
    if f != [] {
      FilterMember(lines, Setting(key), f[0]);
    }
    if exists l :: l in lines && SetsKey(l, key) {
      var l :| l in lines && SetsKey(l, key);
      FilterMember(lines, Setting(key), l);
    }
  }

  /** `_update_env` as written: the lines replaced, and the new line appended when none set the key. */
  function EnvUpdated(lines: seq<string>, key: string, value: string): seq<string>
  {
    Replaced(lines, key, value) + (if AnySets(lines, key) then [] else [EnvLineText(key, value)])
  }

  /**
   * As written, a key added to a file whose only line has no '\n' is glued
   * to that line: the file is read back with one line, which sets the old
   * key to a value that swallowed the new assignment.
   */
  lemma UnterminatedLineSwallowsKey(k0: string, v0: string, key: string, value: string)
    requires PlainKey(k0) && PlainKey(key) && NoSpace(v0) && NoSpace(value)
    requires !SetsKey(k0 + "=" + v0, key)
    ensures var out := ReadLines(FileText(EnvUpdated([k0 + "=" + v0], key, value)));
            var glued := v0 + key + "=" + value;
            out == [k0 + "=" + glued + "\n"] && EnvOf(out) == map[k0 := glued]
  {
    WrittenWhenUnset(k0 + "=" + v0, key, value);
    GluedReadBack(k0, v0, key, value);
  }

  /** A line that does not set the key is written, with the new line right after it. */
  lemma WrittenWhenUnset(l: string, key: string, value: string)
    requires !SetsKey(l, key)
    ensures FileText(EnvUpdated([l], key, value)) == l + EnvLineText(key, value)
  {
    assert Filter([l], Setting(key)) == [] by {
      assert [l][..0] == [];
    }
    assert Replaced([l], key, value) == [l] by {
      assert [l][..0] == [];
    }
    var t := EnvLineText(key, value);
    assert EnvUpdated([l], key, value) == [l, t];
    assert [l, t][..1] == [l];
    assert [l][..0] == [];
    assert Concat([l]) == [] + l;
    assert [] + l == l;
  }

  /** `_update_env` as intended: the new line goes on a line of its own. */
  function EnvUpdatedSafe(lines: seq<string>, key: string, value: string): seq<string>
  {
    var kept := Replaced(lines, key, value);
    if AnySets(lines, key) then kept else Terminated(kept) + [EnvLineText(key, value)]
  }

  /** The two differ only when a line is appended after a last line with no '\n'. */
  lemma SafeAgrees(lines: seq<string>, key: string, value: string)
    requires |lines| == 0 || EndsWith(lines[|lines| - 1], "\n") || AnySets(lines, key)
    ensures EnvUpdatedSafe(lines, key, value) == EnvUpdated(lines, key, value)
  {
    if |lines| > 0 && !AnySets(lines, key) {
      ReplacedAt(lines, key, value, |lines| - 1);
    }
  }

  /**
   * `_update_env`: every line setting the key is replaced, and the new line
   * is appended when none did, right after the last line as it stands.
   */
  method UpdateEnv(lines: seq<string>, key: string, value: string) returns (newLines: seq<string>)
    ensures newLines == EnvUpdated(lines, key, value)
  {
    var found := false;
    newLines := [];
    for i := 0 to |lines|
      invariant newLines == Replaced(lines[..i], key, value)
      invariant found == AnySets(lines[..i], key)
    {
      assert lines[..i + 1][..i] == lines[..i];
      FilterStep(lines, Setting(key), i);
      if StartsWith(Strip(lines[i]), key + "=") {
        newLines := newLines + [EnvLineText(key, value)];
        found := true;
      } else {
        newLines := newLines + [lines[i]];
      }
    }
    assert lines[..|lines|] == lines;
    if !found {
      newLines := newLines + [EnvLineText(key, value)];
    }
  }

  /** The corrected update keeps the shape of a file's lines. */
  lemma SafeKeepsFileLines(lines: seq<string>, key: string, value: string)
    requires FileLines(lines) && NoSpace(key) && LineValue(value)
    ensures FileLines(EnvUpdatedSafe(lines, key, value))
  {
    LineShape(key, value);
    ReplacedKeepsFileLines(lines, key, value);
    if !AnySets(lines, key) {
      TerminatedThenLine(Replaced(lines, key, value), EnvLineText(key, value));
    }
  }

  /** Replacing lines by written setting lines keeps the shape of a file's lines. */
  lemma ReplacedKeepsFileLines(lines: seq<string>, key: string, value: string)
    requires FileLines(lines) && NoSpace(key) && LineValue(value)
    ensures FileLines(Replaced(lines, key, value))
  {
    var kept := Replaced(lines, key, value);
    forall i | 0 <= i < |kept|
      ensures kept[i] != "" && '\n' !in kept[i][..|kept[i]| - 1] && (i < |kept| - 1 ==> kept[i][|kept[i]| - 1] == '\n')
    {
      ReplacedLineShape(lines, key, value, i);
    }
  }

  lemma ReplacedLineShape(lines: seq<string>, key: string, value: string, i: nat)
    requires FileLines(lines) && NoSpace(key) && LineValue(value) && i < |lines|
    ensures var l := Replaced(lines, key, value)[i];
            l != "" && '\n' !in l[..|l| - 1] && (i < |lines| - 1 ==> l[|l| - 1] == '\n')
  {
    ReplacedAt(lines, key, value, i);
    if SetsKey(lines[i], key) {
      LineShape(key, value);
    } else {
      assert lines[i] != "" && '\n' !in lines[i][..|lines[i]| - 1] && (i < |lines| - 1 ==> lines[i][|lines[i]| - 1] == '\n');
    }
  }

  /** Ending the last line and appending a whole line keeps the shape of a file's lines. */
  lemma TerminatedThenLine(kept: seq<string>, l: string)
    requires FileLines(kept)
    requires l != "" && '\n' !in l[..|l| - 1] && l[|l| - 1] == '\n'
    ensures FileLines(Terminated(kept) + [l])
  {
    var tk := Terminated(kept);
    if |kept| > 0 && !EndsWith(kept[|kept| - 1], "\n") {
      var x := kept[|kept| - 1];
      assert x[|x| - 1..] == [x[|x| - 1]];
      NoNewline(x);
      assert (x + "\n")[..|x|] == x;
      assert tk[|kept| - 1] == x + "\n";
    }
    var out := tk + [l];
    forall i | 0 <= i < |out|
      ensures out[i] != "" && '\n' !in out[i][..|out[i]| - 1] && (i < |out| - 1 ==> out[i][|out[i]| - 1] == '\n')
    {
      if i < |kept| - 1 {
        assert out[i] == kept[i];
      }
    }
  }

  /** Every line the settings loader reads as setting `key` is one `_update_env` recognises. */
  predicate KeyLinesPlain(lines: seq<string>, key: string)
  {
    forall i :: 0 <= i < |lines| && Sets(ParseLine(lines[i]), key) ==> SetsKey(lines[i], key)
  }

  /** A line of the corrected output that sets `key` sets it to the new value. */
  lemma SafeLineSays(lines: seq<string>, key: string, value: string, i: nat)
    requires PlainKey(key) && LineValue(value) && KeyLinesPlain(lines, key)
    requires i < |EnvUpdatedSafe(lines, key, value)|
    ensures var p := ParseLine(EnvUpdatedSafe(lines, key, value)[i]);
            Sets(p, key) ==> p == Assign(key, value)
  {
    var out := EnvUpdatedSafe(lines, key, value);
    if i < |lines| {
      assert ParseLine(out[i]) == ParseLine(Replaced(lines, key, value)[i]) by {
        SafeKeepsParse(lines, key, value, i);
      }
      KeptLineSays(lines, key, value, i);
    } else {
      assert out[i] == EnvLineText(key, value);
      ParseWrittenLine(key, value);
    }
  }

  /** A line kept or replaced by the update that sets `key` sets it to the new value. */
  lemma KeptLineSays(lines: seq<string>, key: string, value: string, i: nat)
    requires PlainKey(key) && LineValue(value) && KeyLinesPlain(lines, key) && i < |lines|
    ensures var p := ParseLine(Replaced(lines, key, value)[i]);
            Sets(p, key) ==> p == Assign(key, value)
  {
    ParseWrittenLine(key, value);
    ReplacedAt(lines, key, value, i);
  }

  /** Ending the last line with '\n' does not change what the line sets. */
  lemma SafeKeepsParse(lines: seq<string>, key: string, value: string, i: nat)
    requires i < |lines|
    ensures ParseLine(EnvUpdatedSafe(lines, key, value)[i]) == ParseLine(Replaced(lines, key, value)[i])
  {
    var kept := Replaced(lines, key, value);
    if !AnySets(lines, key) {
      TerminatedAt(kept, i);
      if Terminated(kept)[i] != kept[i] {
        StripNewline(kept[i]);
      }
    }
  }

  /** The corrected output has a line setting `key` to the new value. */
  lemma SafeHasLine(lines: seq<string>, key: string, value: string) returns (j: nat)
    requires PlainKey(key) && LineValue(value)
    ensures j < |EnvUpdatedSafe(lines, key, value)|
    ensures ParseLine(EnvUpdatedSafe(lines, key, value)[j]) == Assign(key, value)
  {
    ParseWrittenLine(key, value);
    AnySetsWitness(lines, key);
    if AnySets(lines, key) {
      var l :| l in lines && SetsKey(l, key);
      var i :| 0 <= i < |lines| && lines[i] == l;
      ReplacedAt(lines, key, value, i);
      j := i;
    } else {
      j := |lines|;
    }
  }

  /**
   * After the corrected update, the file read back by the settings loader
   * sets `key` to the new value.
   */
  lemma SafeUpdateReadsBack(lines: seq<string>, key: string, value: string)
    requires FileLines(lines) && PlainKey(key) && LineValue(value) && KeyLinesPlain(lines, key)
    ensures var back := EnvOf(ReadLines(FileText(EnvUpdatedSafe(lines, key, value))));
            key in back && back[key] == value
  {
    var out := EnvUpdatedSafe(lines, key, value);
    SafeKeepsFileLines(lines, key, value);
    ReadWritten(out);
    forall i | 0 <= i < |out| && ParseLine(out[i]).Assign? && ParseLine(out[i]).key == key
      ensures ParseLine(out[i]).value == value
    {
      SafeLineSays(lines, key, value, i);
    }
    var j := SafeHasLine(lines, key, value);
    UniformValue(out, key, value, j);
  }

  // ---------------------------------------------------------------------
  // The route
  // ---------------------------------------------------------------------

  /** The spreadsheet as `pd.read_excel` returns it, or the text of the exception it raised. */
  datatype ReadOutcome = ReadOk(grid: Grid) | ReadFailed(error: string)

  datatype UploadReply =
    | BadFormat(error: string)
    | Unreadable(error: string)
    | Saved(filename: string, rows: nat, columns: seq<string>, issues: seq<string>, preview: seq<seq<Cell>>)

  const BadFormatMessage: string := "Formato invalido. Aceito: .xlsx, .xls"
  const ReadErrorPrefix: string := "Erro ao ler arquivo: "
  const InputFileKey: string := "INPUT_FILE"

  /**
   * `upload_file`: a file with another extension is refused; a sheet that
   * cannot be read is reported; otherwise its columns are checked and
   * normalised, it is saved under `saveName`, and `.env` is pointed at it.
   * `newEnv` is the new `.env` when it is written.
   */
  method Upload(filename: string, read: ReadOutcome, saveName: string, env: seq<string>)
    returns (reply: UploadReply, newEnv: Option<seq<string>>)
    ensures !Accepted(filename) ==> reply == BadFormat(BadFormatMessage) && newEnv.None?
    ensures Accepted(filename) && read.ReadFailed? ==>
              reply == Unreadable(ReadErrorPrefix + read.error) && newEnv.None?
    ensures Accepted(filename) && read.ReadOk? ==>
              var g := Normalized(read.grid);
              reply == Saved(saveName, |read.grid.rows|, g.header, Issues(Stripped(read.grid.header)), Preview(g))
              && newEnv == Some(EnvUpdated(env, InputFileKey, saveName))
  {
    if Lower(Ext(filename)) !in {".xlsx", ".xls"} {
      return BadFormat(BadFormatMessage), None;
    }
    if read.ReadFailed? {
      return Unreadable(ReadErrorPrefix + read.error), None;
    }
    var df, issues := Normalize(read.grid);
    var lines := UpdateEnv(env, InputFileKey, saveName);
    newEnv := Some(lines);
    reply := Saved(saveName, |df.rows|, df.header, issues, Preview(df));
  }

  /** The body of `upload_file` between reading the sheet and saving it: the check and the normalisation. */
  method Normalize(g: Grid) returns (df: Grid, issues: seq<string>)
    ensures df == Normalized(g) && issues == Issues(Stripped(g.header))
  {
    var cols := Stripped(g.header);
    issues := Issues(cols);
    var m := RenameMap(cols);
    var header := seq(|cols|, i requires 0 <= i < |cols| => if cols[i] in m then m[cols[i]] else cols[i]);
    assert header == Renamed(cols);
    df := WithPosition(Grid(header, g.rows));
  }

  /** The key `_update_env` is given is one the settings loader reads back. */
  lemma InputFileKeyPlain()
    ensures PlainKey(InputFileKey)
  {
  }

  /**
   * After an upload is saved, the `.env` written points INPUT_FILE at the
   * saved copy when read back by the settings loader, provided its last line
   * ended with '\n' or it already set INPUT_FILE (otherwise see
   * `UnterminatedLineSwallowsKey`).
   */
  lemma UploadPointsInputFile(env: seq<string>, saveName: string)
    requires FileLines(env) && LineValue(saveName) && KeyLinesPlain(env, InputFileKey)
    requires env == [] || EndsWith(env[|env| - 1], "\n") || AnySets(env, InputFileKey)
    ensures var back := EnvOf(ReadLines(FileText(EnvUpdated(env, InputFileKey, saveName))));
            InputFileKey in back && back[InputFileKey] == saveName
  {
    InputFileKeyPlain();
    SafeAgrees(env, InputFileKey, saveName);
    SafeUpdateReadsBack(env, InputFileKey, saveName);
  }
}
