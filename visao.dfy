/**
 * Step 3, the view per debtor: each process row gets an entity id (the
 * CNPJ root or the CPF), rows are grouped by it, each group is summarised
 * by counts and by the sorted distinct values of a few columns, and the
 * summaries are joined with the debtor names of the input spreadsheet and
 * with the number of files downloaded per entity.
 */
module Visao {
  import opened Common
  import opened Utils
  import opened Frames
  import Organiza

  const FlagExtinto := "Flag Extinto"
  const FlagReu := "Flag Reu"

  /**
   * A frame as step 2 writes it: it holds every export column, among them
   * every column `aggregate_por_entidade` reads.
   */
  predicate StageTwoColumns(cols: set<string>)
  {
    AllIn(Organiza.ExportColumns, cols)
  }

  /** Every name of `cs` is a column of `cols`. */
  predicate AllIn(cs: seq<string>, cols: set<string>)
  {
    cs == [] || (cs[0] in cols && AllIn(cs[1..], cols))
  }

  lemma {:induction false} AllInMembers(cs: seq<string>, cols: set<string>)
    requires forall c :: c in cs ==> c in cols
    ensures AllIn(cs, cols)
  {
    if cs != [] {
      assert cs[0] in cs;
      forall c | c in cs[1..]
        ensures c in cols
      {
        assert c in cs;
      }
      AllInMembers(cs[1..], cols);
    }
  }

  /** Step 2's projection always gives such a frame. */
  lemma ProjetadoHasStageTwoColumns(f: Frame)
    ensures StageTwoColumns(Organiza.Projetar(f).columns)
  {
    AllInMembers(Organiza.ExportColumns, Organiza.Projetar(f).columns);
  }

  /** `str(row.get(col, ""))`: "" when the frame lacks the column, "nan" for a missing cell. */
  function Str(cols: set<string>, r: Row, col: string): string
  {
    if col in cols then CellText(Get(r, col)) else ""
  }

  /** `s[:n]`, which Python clamps to the string's length. */
  function Prefix(s: string, n: nat): string
  {
    if |s| <= n then s else s[..n]
  }

  // ---------------------------------------------------------------------
  // Entity id
  // ---------------------------------------------------------------------

  /**
   * `calcular_entity_id` as written: the first 8 characters of a root of
   * at least 8 characters that is not "NA"; else the root of a 14-character
   * document; else an 11-character document; else the document, or
   * "DESCONHECIDO". An 11-digit CPF stored as the root is cut to 8.
   */
  function EntityIdAsWritten(cols: set<string>, r: Row): (eid: string)
    ensures eid != ""
  {
    var raiz, doc := Strip(Str(cols, r, Organiza.CnpjRaiz)), Strip(Str(cols, r, Organiza.CnpjCompleto));
    if raiz != "" && |raiz| >= 8 && raiz != "NA" then raiz[..8]
    else if doc != "" && |doc| == 14 then doc[..8]
    else if doc != "" && |doc| == 11 then doc
    else if doc != "" then doc
    else "DESCONHECIDO"
  }

  /**
   * The entity id with an 11-character root (the CPF that step 2 stores
   * as the root of a person identified by CPF) kept whole, as the
   * function's own description (CPF: the full 11 digits) and the other
   * two joins of this step expect.
   */
  function EntityId(cols: set<string>, r: Row): (eid: string)
    ensures eid != ""
  {
    var raiz, doc := Strip(Str(cols, r, Organiza.CnpjRaiz)), Strip(Str(cols, r, Organiza.CnpjCompleto));
    if raiz != "" && |raiz| == 11 && raiz != "NA" then raiz
    else if raiz != "" && |raiz| >= 8 && raiz != "NA" then raiz[..8]
    else if doc != "" && |doc| == 14 then doc[..8]
    else if doc != "" && |doc| == 11 then doc
    else if doc != "" then doc
    else "DESCONHECIDO"
  }

  /** The entity id of a person's download directory: the root of a 14-digit CNPJ, else the document. */
  function StatsEid(doc: string, tipo: string): string
  {
    if tipo == "CNPJ" && |doc| == 14 then doc[..8] else doc
  }

  /** The key of a name in `eid_nome`: the first 8 digits of a CNPJ, the whole CPF. */
  function NameKey(d: string): Option<string>
  {
    match DocumentKind(d)
    case Cnpj => Some(Prefix(d, 8))
    case Cpf => Some(d)
    case NoKind => None
  }

  /** A row as step 2 writes it for a person: its root column holds the person's root. */
  predicate RowOfPerson(cols: set<string>, r: Row, doc: string, tipo: string)
  {
    Organiza.CnpjRaiz in cols && Get(r, Organiza.CnpjRaiz) == Text(Organiza.RaizDe(doc, tipo))
  }

  /**
   * For a person whose document is a 14-digit CNPJ or an 11-digit CPF, the
   * entity id of each of their rows is the key their download directory is
   * counted under.
   */
  lemma EntityIdMatchesStats(cols: set<string>, r: Row, doc: string, tipo: string)
    requires AllDigits(doc) && RowOfPerson(cols, r, doc, tipo)
    requires (tipo == "CNPJ" && |doc| == 14) || (tipo == "CPF" && |doc| == 11)
    ensures EntityId(cols, r) == StatsEid(doc, tipo)
  {
    var raiz := Organiza.RaizDe(doc, tipo);
    RootOfPerson(cols, r, doc, tipo);
    if tipo == "CNPJ" {
      assert |raiz| == 8 && raiz == doc[..8];
    } else {
      assert raiz == doc;
    }
  }

  /** The root column of a person's row reads back, stripped, as the person's root, which is not "NA". */
  lemma RootOfPerson(cols: set<string>, r: Row, doc: string, tipo: string)
    requires AllDigits(doc) && RowOfPerson(cols, r, doc, tipo)
    requires (tipo == "CNPJ" && |doc| == 14) || (tipo == "CPF" && |doc| == 11)
    ensures var raiz := Organiza.RaizDe(doc, tipo);
            Strip(Str(cols, r, Organiza.CnpjRaiz)) == raiz && raiz != "NA" && AllDigits(raiz)
            && (tipo == "CNPJ" ==> raiz == doc[..8]) && (tipo == "CPF" ==> raiz == doc)
  {
    var raiz := Organiza.RaizDe(doc, tipo);
    Organiza.RaizDeFacts(doc, tipo);
    assert Str(cols, r, Organiza.CnpjRaiz) == raiz;
    assert raiz == doc[..|raiz|];
    assert AllDigits(raiz) by {
      forall i | 0 <= i < |raiz| ensures IsDigit(raiz[i]) {
        assert raiz[i] == doc[i];
      }
    }
    assert NoSpace(raiz) by {
      forall i | 0 <= i < |raiz| ensures !IsSpace(raiz[i]) {
        assert IsDigit(raiz[i]);
      }
    }
    StripNoSpace(raiz);
    assert raiz != "NA" by {
      assert |raiz| != |"NA"|;
    }
  }

  /** A valid CNPJ or CPF is named under its entity id as well. */
  lemma NameKeyMatchesStats(doc: string, tipo: string)
    requires (tipo == "CNPJ" && DocumentKind(doc) == Cnpj) || (tipo == "CPF" && DocumentKind(doc) == Cpf)
    requires NormalizeDocument(doc) == doc
    ensures NameKey(doc) == Some(StatsEid(doc, tipo))
  {
  }

  /**
   * As written, the entity id of a CPF person's rows is the CPF's first 8
   * digits, which is not the key of their download directory (nor the key
   * of their name): the lookups find nothing for them.
   */
  lemma CpfEntityIdTruncated(cols: set<string>, r: Row, cpf: string)
    requires AllDigits(cpf) && |cpf| == 11 && RowOfPerson(cols, r, cpf, "CPF")
    ensures EntityIdAsWritten(cols, r) == cpf[..8]
    ensures EntityIdAsWritten(cols, r) != StatsEid(cpf, "CPF")
  {
    RootOfPerson(cols, r, cpf, "CPF");
  }

  // ---------------------------------------------------------------------
  // Counts per entity
  // ---------------------------------------------------------------------

  /**
   * `flag == v` as written: only an integer cell equals an integer, so a
   * frame read from the spreadsheet with `dtype=str` never matches.
   */
  predicate FlagIsAsWritten(c: Cell, v: int)
  {
    c == Int(v)
  }

  /** The number a flag cell holds: an integer cell, or a text that reads as an integer. */
  function FlagNum(c: Cell): Option<int>
  {
    match c
    case Int(n) => Some(n)
    case Text(s) => ParseInt(s)
    case Missing => None
  }

  /** `col.fillna("")` followed by `str`. */
  function Filled(c: Cell): string
  {
    match c
    case Missing => ""
    case Text(s) => s
    case Int(n) => IntToString(n)
  }

  /** `classe.str.contains("1116", na=False)`: only a text cell can contain it. */
  predicate IsEF(r: Row)
  {
    var c := Get(r, "Classe");
    c.Text? && Contains(c.s, "1116")
  }

  predicate IsTrab(r: Row)
  {
    IsLabourCourt(Filled(Get(r, Organiza.Cnj)))
  }

  datatype Contagens = Contagens(processos: nat, ativos: nat, extintos: nat, execFiscal: nat,
                                 trabalhista: nat, poloAtivoNaoEF: nat)

  /**
   * The counts of `aggregate_por_entidade` as written: without a
   * "Flag Extinto" column every process is active and none extinct, and
   * without a "Flag Reu" column none is on the active side.
   */
  function ContagensAsWritten(cols: set<string>, rows: seq<Row>): Contagens
  {
    Contagens(|rows|,
      if FlagExtinto in cols then |Filter(rows, AtivoAsWritten)| else |rows|,
      if FlagExtinto in cols then |Filter(rows, ExtintoAsWritten)| else 0,
      |Filter(rows, IsEF)|,
      |Filter(rows, IsTrab)|,
      if FlagReu in cols then |Filter(rows, PoloAtivoAsWritten)| else 0)
  }

  predicate AtivoAsWritten(r: Row) { FlagIsAsWritten(Get(r, FlagExtinto), 0) }
  predicate ExtintoAsWritten(r: Row) { FlagIsAsWritten(Get(r, FlagExtinto), 1) }
  predicate PoloAtivoAsWritten(r: Row) { FlagIsAsWritten(Get(r, FlagReu), 1) && !IsEF(r) }

  /**
   * As written, too, no process is both active and extinct, nor both an
   * execution-fiscal one and an active-side non-EF one; when every
   * extinction flag is the integer 0 or 1 the two counts add up to the
   * group size.
   */
  lemma ContagensAsWrittenBounds(cols: set<string>, rows: seq<Row>)
    ensures var c := ContagensAsWritten(cols, rows);
            && c.ativos + c.extintos <= c.processos
            && c.execFiscal + c.poloAtivoNaoEF <= c.processos
            && c.trabalhista <= c.processos
            && ((forall i :: 0 <= i < |rows| ==> Get(rows[i], FlagExtinto) in {Int(0), Int(1)})
                ==> c.ativos + c.extintos == c.processos)
  {
    FilterDisjointCount(rows, AtivoAsWritten, ExtintoAsWritten);
    FilterDisjointCount(rows, IsEF, PoloAtivoAsWritten);
  }

  predicate Ativo(r: Row) { FlagNum(Get(r, FlagExtinto)) == Some(0) }
  predicate Extinto(r: Row) { FlagNum(Get(r, FlagExtinto)) == Some(1) }
  predicate PoloAtivoNaoEF(r: Row) { FlagNum(Get(r, FlagReu)) == Some(1) && !IsEF(r) }

  /** The counts with the flags read by their numeric value, whether the cell is an integer or its text. */
  function ContagensDe(cols: set<string>, rows: seq<Row>): (c: Contagens)
    ensures c.processos == |rows|
  {
    Contagens(|rows|,
      if FlagExtinto in cols then |Filter(rows, Ativo)| else |rows|,
      if FlagExtinto in cols then |Filter(rows, Extinto)| else 0,
      |Filter(rows, IsEF)|,
      |Filter(rows, IsTrab)|,
      if FlagReu in cols then |Filter(rows, PoloAtivoNaoEF)| else 0)
  }

  /**
   * Active and extinct processes never overlap, nor do execution-fiscal
   * processes and active-side non-EF ones; when every extinction flag is
   * 0 or 1 the active and extinct counts add up to the group size.
   */
  lemma ContagensBounds(cols: set<string>, rows: seq<Row>)
    ensures var c := ContagensDe(cols, rows);
            && c.ativos + c.extintos <= c.processos
            && c.execFiscal + c.poloAtivoNaoEF <= c.processos
            && c.trabalhista <= c.processos
            && ((forall i :: 0 <= i < |rows| ==> Ativo(rows[i]) || Extinto(rows[i])) ==> c.ativos + c.extintos == c.processos)
  {
    FilterDisjointCount(rows, Ativo, Extinto);
    FilterDisjointCount(rows, IsEF, PoloAtivoNaoEF);
  }

  /** A cell as the spreadsheet round trip leaves it: integers become their text. */
  function AsText(c: Cell): Cell
  {
    if c.Int? then Text(IntToString(c.n)) else c
  }

  function RowAsText(r: Row): Row
  {
    map k | k in r :: AsText(r[k])
  }

  function RowsAsText(rows: seq<Row>): seq<Row>
  {
    seq(|rows|, i requires 0 <= i < |rows| => RowAsText(rows[i]))
  }

  lemma GetAsText(r: Row, col: string)
    ensures Get(RowAsText(r), col) == AsText(Get(r, col))
  {
  }

  /** A flag reads the same number after the round trip. */
  lemma FlagNumAsText(c: Cell)
    ensures FlagNum(AsText(c)) == FlagNum(c)
  {
    if c.Int? {
      ParseIntToString(c.n);
    }
  }

  /** One row reads the same, flag by flag, after the round trip. */
  lemma RowAsTextAgrees(r: Row)
    requires !Get(r, "Classe").Int?
    ensures Ativo(RowAsText(r)) == Ativo(r) && Extinto(RowAsText(r)) == Extinto(r)
    ensures IsEF(RowAsText(r)) == IsEF(r) && IsTrab(RowAsText(r)) == IsTrab(r)
    ensures PoloAtivoNaoEF(RowAsText(r)) == PoloAtivoNaoEF(r)
  {
    var t := RowAsText(r);
    GetAsText(r, FlagExtinto);
    GetAsText(r, FlagReu);
    GetAsText(r, "Classe");
    GetAsText(r, Organiza.Cnj);
    FlagNumAsText(Get(r, FlagExtinto));
    FlagNumAsText(Get(r, FlagReu));
    assert Filled(Get(t, Organiza.Cnj)) == Filled(Get(r, Organiza.Cnj));
  }

  /**
   * The numeric counts survive writing the frame to the spreadsheet and
   * reading it back as text, as long as no class cell is an integer (an
   * integer class never counts as "1116" but its text can).
   */
  lemma ContagensSurviveText(cols: set<string>, rows: seq<Row>)
    requires forall i :: 0 <= i < |rows| ==> !Get(rows[i], "Classe").Int?
    ensures ContagensDe(cols, RowsAsText(rows)) == ContagensDe(cols, rows)
  {
    var t := RowsAsText(rows);
    forall i | 0 <= i < |rows|
      ensures Ativo(t[i]) == Ativo(rows[i]) && Extinto(t[i]) == Extinto(rows[i])
      ensures IsEF(t[i]) == IsEF(rows[i]) && IsTrab(t[i]) == IsTrab(rows[i])
      ensures PoloAtivoNaoEF(t[i]) == PoloAtivoNaoEF(rows[i])
    {
      RowAsTextAgrees(rows[i]);
    }
    FilterCountCongruent(t, Ativo, rows, Ativo);
    FilterCountCongruent(t, Extinto, rows, Extinto);
    FilterCountCongruent(t, IsEF, rows, IsEF);
    FilterCountCongruent(t, IsTrab, rows, IsTrab);
    FilterCountCongruent(t, PoloAtivoNaoEF, rows, PoloAtivoNaoEF);
  }

  /**
   * As written, a frame that went through the spreadsheet has no integer
   * cell, so with a "Flag Extinto" column no process counts as active or
   * extinct, and none as active-side non-EF.
   */
  lemma TextFlagsNeverMatch(cols: set<string>, rows: seq<Row>)
    requires FlagExtinto in cols && FlagReu in cols
    ensures var c := ContagensAsWritten(cols, RowsAsText(rows));
            c.ativos == 0 && c.extintos == 0 && c.poloAtivoNaoEF == 0
  {
    var t := RowsAsText(rows);
    forall i | 0 <= i < |t|
      ensures !FlagIsAsWritten(Get(t[i], FlagExtinto), 0) && !FlagIsAsWritten(Get(t[i], FlagExtinto), 1)
      ensures !FlagIsAsWritten(Get(t[i], FlagReu), 1)
    {
      GetAsText(rows[i], FlagExtinto);
      GetAsText(rows[i], FlagReu);
    }
    NoneKept(t, AtivoAsWritten);
    NoneKept(t, ExtintoAsWritten);
    NoneKept(t, PoloAtivoAsWritten);
  }

  lemma {:induction false} NoneKept(rows: seq<Row>, p: Row -> bool)
    requires forall i :: 0 <= i < |rows| ==> !p(rows[i])
    ensures Filter(rows, p) == []
  {
    if |rows| > 0 {
      NoneKept(rows[..|rows| - 1], p);
    }
  }

  // ---------------------------------------------------------------------
  // Sorted distinct values per entity
  // ---------------------------------------------------------------------

  /** `str(v).strip()` of each cell of a column, the blank ones dropped; nothing when the column is absent. */
  function Valores(cols: set<string>, rows: seq<Row>, col: string): seq<string>
  {
    if col in cols then StrippedNonEmpty(seq(|rows|, i requires 0 <= i < |rows| => CellText(Get(rows[i], col)))) else []
  }

  /** `sorted(set(...))` of a column's values. */
  function Distintos(cols: set<string>, rows: seq<Row>, col: string): seq<string>
  {
    SortedUnique(Valores(cols, rows, col))
  }

  /**
   * A column's distinct values are strictly sorted and are exactly the
   * non-blank stripped texts of its cells (a missing cell reads "nan").
   */
  lemma DistintosMember(cols: set<string>, rows: seq<Row>, col: string, y: string)
    requires col in cols
    ensures StrictlySorted(Distintos(cols, rows, col))
    ensures y in Distintos(cols, rows, col) <==> y != "" && exists i :: 0 <= i < |rows| && Strip(CellText(Get(rows[i], col))) == y
  {
    var texts := seq(|rows|, i requires 0 <= i < |rows| => CellText(Get(rows[i], col)));
    StrippedNonEmptyMember(texts, y);
    if y != "" && exists i :: 0 <= i < |rows| && Strip(CellText(Get(rows[i], col))) == y {
      var i :| 0 <= i < |rows| && Strip(CellText(Get(rows[i], col))) == y;
      assert Strip(texts[i]) == y;
    }
  }

  /** Every origin piece of a group's rows, row after row. */
  function TodasOrigens(cols: set<string>, rows: seq<Row>): seq<string>
  {
    if Organiza.Origens in cols then Concat(seq(|rows|, i requires 0 <= i < |rows| => Organiza.OrigemParts(rows[i]))) else []
  }

  /** The group's origins are the origin pieces of its rows, and nothing else. */
  lemma TodasOrigensMember(cols: set<string>, rows: seq<Row>, y: string)
    requires Organiza.Origens in cols
    ensures y in TodasOrigens(cols, rows) <==> exists i :: 0 <= i < |rows| && y in Organiza.OrigemParts(rows[i])
  {
    var parts := seq(|rows|, i requires 0 <= i < |rows| => Organiza.OrigemParts(rows[i]));
    ConcatMember(parts, y);
    if exists i :: 0 <= i < |rows| && y in Organiza.OrigemParts(rows[i]) {
      var i :| 0 <= i < |rows| && y in Organiza.OrigemParts(rows[i]);
      assert y in parts[i];
    }
  }

  datatype Agregado = Agregado(entityId: string, ids: string, contagens: Contagens,
                               tribunais: string, classes: string, origens: string)

  /** `aggregate_por_entidade` without the values and dates: the counts and the joined distinct values. */
  function Agregar(eid: string, cols: set<string>, rows: seq<Row>): Agregado
  {
    Agregado(eid,
      Join(Distintos(cols, rows, Organiza.IdIndividuo), ", "),
      ContagensAsWritten(cols, rows),
      Join(Distintos(cols, rows, "Tribunal"), " | "),
      Join(Distintos(cols, rows, "Classe"), " | "),
      Join(SortedUnique(TodasOrigens(cols, rows)), ", "))
  }

  // ---------------------------------------------------------------------
  // Grouping
  // ---------------------------------------------------------------------

  function EntityIds(cols: set<string>, rows: seq<Row>): (r: seq<string>)
    ensures |r| == |rows| && forall i :: 0 <= i < |rows| ==> r[i] == EntityIdAsWritten(cols, rows[i])
  {
    seq(|rows|, i requires 0 <= i < |rows| => EntityIdAsWritten(cols, rows[i]))
  }

  /** The rows of one entity, in order. */
  function Grupo(cols: set<string>, rows: seq<Row>, eid: string): seq<Row>
  {
    Filter(rows, (r: Row) => EntityIdAsWritten(cols, r) == eid)
  }

  /** `groupby("Entity ID")`: the entity ids in sorted order. */
  function Grupos(cols: set<string>, rows: seq<Row>): seq<string>
  {
    SortedUnique(EntityIds(cols, rows))
  }

  function TotalProcessos(aggs: seq<Agregado>): nat
  {
    if |aggs| == 0 then 0 else TotalProcessos(aggs[..|aggs| - 1]) + aggs[|aggs| - 1].contagens.processos
  }

  function SomaGrupos(cols: set<string>, rows: seq<Row>, ids: seq<string>): nat
  {
    if |ids| == 0 then 0 else SomaGrupos(cols, rows, ids[..|ids| - 1]) + |Grupo(cols, rows, ids[|ids| - 1])|
  }

  function Hits(ids: seq<string>, e: string): nat
  {
    if |ids| == 0 then 0 else Hits(ids[..|ids| - 1], e) + (if ids[|ids| - 1] == e then 1 else 0)
  }

  lemma {:induction false} HitsDistinct(ids: seq<string>, e: string)
    requires Distinct(ids)
    ensures Hits(ids, e) == (if e in ids then 1 else 0)
  {
    if |ids| > 0 {
      var init := ids[..|ids| - 1];
      HitsDistinct(init, e);
      assert ids == init + [ids[|ids| - 1]];
      if e in init {
        var k :| 0 <= k < |init| && init[k] == e;
        assert ids[k] == e;
      }
    }
  }

  /** Adding one row adds, over any list of ids, as many group members as the list has copies of the row's id. */
  lemma {:induction false} SomaGruposStep(cols: set<string>, rows: seq<Row>, ids: seq<string>)
    requires |rows| > 0
    ensures SomaGrupos(cols, rows, ids)
            == SomaGrupos(cols, rows[..|rows| - 1], ids) + Hits(ids, EntityIdAsWritten(cols, rows[|rows| - 1]))
  {
    if |ids| > 0 {
      SomaGruposStep(cols, rows, ids[..|ids| - 1]);
    }
  }

  /** Every row lands in exactly one group, so the group sizes add up to the number of rows. */
  lemma {:induction false} SomaGruposTotal(cols: set<string>, rows: seq<Row>, ids: seq<string>)
    requires Distinct(ids)
    requires forall i :: 0 <= i < |rows| ==> EntityIdAsWritten(cols, rows[i]) in ids
    ensures SomaGrupos(cols, rows, ids) == |rows|
  {
    if |rows| == 0 {
      EmptyGroups(cols, ids);
    } else {
      var init := rows[..|rows| - 1];
      SomaGruposTotal(cols, init, ids);
      SomaGruposStep(cols, rows, ids);
      HitsDistinct(ids, EntityIdAsWritten(cols, rows[|rows| - 1]));
    }
  }

  lemma {:induction false} EmptyGroups(cols: set<string>, ids: seq<string>)
    ensures SomaGrupos(cols, [], ids) == 0
  {
    if |ids| > 0 {
      EmptyGroups(cols, ids[..|ids| - 1]);
    }
  }

  /** The sorted entity ids are distinct and cover every row. */
  lemma GruposCover(cols: set<string>, rows: seq<Row>)
    ensures Distinct(Grupos(cols, rows))
    ensures forall i :: 0 <= i < |rows| ==> EntityIdAsWritten(cols, rows[i]) in Grupos(cols, rows)
  {
    var g := Grupos(cols, rows);
    forall i, j | 0 <= i < j < |g|
      ensures g[i] != g[j]
    {
      StrictlySortedDistinct(g, i, j);
    }
    var ids := EntityIds(cols, rows);
    forall i | 0 <= i < |rows|
      ensures EntityIdAsWritten(cols, rows[i]) in g
    {
      assert ids[i] in ids;
    }
  }

  /** The summaries of the entities `ids`, in that order. */
  function Agregados(cols: set<string>, rows: seq<Row>, ids: seq<string>): seq<Agregado>
  {
    if |ids| == 0 then []
    else Agregados(cols, rows, ids[..|ids| - 1]) + [Agregar(ids[|ids| - 1], cols, Grupo(cols, rows, ids[|ids| - 1]))]
  }

  /** One summary per id, each over that id's rows, their sizes adding up as the groups do. */
  lemma {:induction false} AgregadosFacts(cols: set<string>, rows: seq<Row>, ids: seq<string>)
    ensures |Agregados(cols, rows, ids)| == |ids|
    ensures forall i :: 0 <= i < |ids| ==> Agregados(cols, rows, ids)[i] == Agregar(ids[i], cols, Grupo(cols, rows, ids[i]))
    ensures TotalProcessos(Agregados(cols, rows, ids)) == SomaGrupos(cols, rows, ids)
  {
    if |ids| > 0 {
      var init := ids[..|ids| - 1];
      AgregadosFacts(cols, rows, init);
      var prev := Agregados(cols, rows, init);
      var a := Agregar(ids[|ids| - 1], cols, Grupo(cols, rows, ids[|ids| - 1]));
      assert (prev + [a])[..|prev|] == prev;
    }
  }

  /** The group sizes of a frame's summaries add up to its number of rows. */
  lemma AgregadosTotal(cols: set<string>, rows: seq<Row>)
    ensures TotalProcessos(Agregados(cols, rows, Grupos(cols, rows))) == |rows|
  {
    AgregadosFacts(cols, rows, Grupos(cols, rows));
    GruposCover(cols, rows);
    SomaGruposTotal(cols, rows, Grupos(cols, rows));
  }

  /**
   * The aggregation loop of `executar` over the frame step 2 wrote: one
   * summary per entity id, in sorted id order, each over that entity's rows.
   */
  method AgregarTodos(f: Frame) returns (aggs: seq<Agregado>)
    requires StageTwoColumns(f.columns)
    ensures aggs == Agregados(f.columns, f.rows, Grupos(f.columns, f.rows))
    ensures TotalProcessos(aggs) == |f.rows|
  {
    var ids := Grupos(f.columns, f.rows);
    aggs := [];
    var i := 0;
    while i < |ids|
      invariant 0 <= i <= |ids|
      invariant aggs == Agregados(f.columns, f.rows, ids[..i])
    {
      assert ids[..i + 1][..i] == ids[..i];
      aggs := aggs + [Agregar(ids[i], f.columns, Grupo(f.columns, f.rows, ids[i]))];
      i := i + 1;
    }
    assert ids[..|ids|] == ids;
    AgregadosTotal(f.columns, f.rows);
  }

  // ---------------------------------------------------------------------
  // Debtor names from the input spreadsheet
  // ---------------------------------------------------------------------

  /** The key under which an entry of the sheet names a debtor, if any. */
  function ChaveNome(e: Organiza.Entrada): Option<string>
  {
    if e.doc != "" && e.nome != "" then NameKey(e.doc) else None
  }

  /** `eid_nome`, filled entry by entry. */
  function EidNome(keys: seq<Option<string>>, es: seq<Organiza.Entrada>): map<string, string>
    requires |keys| == |es|
  {
    if |es| == 0 then map[]
    else
      var m := EidNome(keys[..|keys| - 1], es[..|es| - 1]);
      var k := keys[|keys| - 1];
      if k.Some? then m[k.value := es[|es| - 1].nome] else m
  }

  /** A key holds the name of the last entry with that key. */
  lemma {:induction false} EidNomeLast(keys: seq<Option<string>>, es: seq<Organiza.Entrada>, i: nat, k: string)
    requires |keys| == |es| && i < |es| && keys[i] == Some(k)
    requires forall j :: i < j < |es| ==> keys[j] != Some(k)
    ensures k in EidNome(keys, es) && EidNome(keys, es)[k] == es[i].nome
  {
    if i < |es| - 1 {
      EidNomeLast(keys[..|keys| - 1], es[..|es| - 1], i, k);
    }
  }

  /** Every key comes from some entry and holds that entry's name. */
  lemma {:induction false} EidNomeSource(keys: seq<Option<string>>, es: seq<Organiza.Entrada>, k: string) returns (i: nat)
    requires |keys| == |es| && k in EidNome(keys, es)
    ensures i < |es| && keys[i] == Some(k) && EidNome(keys, es)[k] == es[i].nome
  {
    if keys[|keys| - 1] == Some(k) {
      i := |es| - 1;
    } else {
      i := EidNomeSource(keys[..|keys| - 1], es[..|es| - 1], k);
    }
  }

  lemma EidNomeSnoc(keys: seq<Option<string>>, es: seq<Organiza.Entrada>, i: nat)
    requires |keys| == |es| && i < |es|
    ensures EidNome(keys[..i + 1], es[..i + 1])
            == if keys[i].Some? then EidNome(keys[..i], es[..i])[keys[i].value := es[i].nome] else EidNome(keys[..i], es[..i])
  {
    assert keys[..i + 1][..i] == keys[..i];
    assert es[..i + 1][..i] == es[..i];
  }

  /**
   * The debtor names of a sheet: None when it lacks a document or a name
   * column (the same column detection as step 2), else `eid_nome`.
   */
  function NomesDe(sheet: Sheet): Option<map<string, string>>
  {
    var docCol, nomeCol := Organiza.LastColumn(sheet.header, Organiza.IsDocColumn), Organiza.LastColumn(sheet.header, Organiza.IsNomeColumn);
    if docCol.None? || docCol.value == "" || nomeCol.None? || nomeCol.value == "" then None
    else
      var es := Organiza.Entradas(sheet.rows, docCol.value, nomeCol.value);
      Some(EidNome(seq(|es|, j requires 0 <= j < |es| => ChaveNome(es[j])), es))
  }

  /** The name-map loop of `_join_input`. */
  method NomesDevedor(sheet: Sheet) returns (m: Option<map<string, string>>)
    ensures m == NomesDe(sheet)
  {
    var docCol, nomeCol := Organiza.LastColumn(sheet.header, Organiza.IsDocColumn), Organiza.LastColumn(sheet.header, Organiza.IsNomeColumn);
    if docCol.None? || docCol.value == "" || nomeCol.None? || nomeCol.value == "" {
      return None;
    }
    var es := Organiza.Entradas(sheet.rows, docCol.value, nomeCol.value);
    var keys := seq(|es|, j requires 0 <= j < |es| => ChaveNome(es[j]));
    var acc := PreencherNomes(keys, es);
    m := Some(acc);
  }

  /** The body of the name-map loop, over the entries and their keys. */
  method PreencherNomes(keys: seq<Option<string>>, es: seq<Organiza.Entrada>) returns (acc: map<string, string>)
    requires |keys| == |es|
    ensures acc == EidNome(keys, es)
  {
    acc := map[];
    var i := 0;
    while i < |es|
      invariant 0 <= i <= |es|
      invariant acc == EidNome(keys[..i], es[..i])
    {
      EidNomeSnoc(keys, es, i);
      if keys[i].Some? {
        acc := acc[keys[i].value := es[i].nome];
      }
      i := i + 1;
    }
    assert keys[..|es|] == keys && es[..|es|] == es;
  }

  // ---------------------------------------------------------------------
  // Download statistics
  // ---------------------------------------------------------------------

  /** `metadata.json` of a directory: its document and type, or unreadable. */
  datatype Metadados = Metadados(documento: string, tipo: string) | Ilegivel

  /**
   * One entry of the output directory: whether it is a directory, its
   * metadata (None when it has no `metadata.json`), and the names of every
   * file below it.
   */
  datatype Pasta = Pasta(isDir: bool, meta: Option<Metadados>, files: seq<string>)

  predicate IsPagina(fn: string)
  {
    StartsWith(fn, "page_") && EndsWith(fn, ".json")
  }

  predicate IsDetalhe(fn: string)
  {
    EndsWith(fn, ".json") && !StartsWith(fn, "page_") && fn != "metadata.json" && fn != "processos_unicos.json"
  }

  datatype Baixados = Baixados(paginas: nat, detalhes: nat)

  function Soma(a: Baixados, b: Baixados): Baixados
  {
    Baixados(a.paginas + b.paginas, a.detalhes + b.detalhes)
  }

  /** The pages and detail files of one directory. */
  function Conta(files: seq<string>): (b: Baixados)
    ensures b.paginas + b.detalhes <= |files|
  {
    FilterDisjointCount(files, IsPagina, IsDetalhe);
    Baixados(|Filter(files, IsPagina)|, |Filter(files, IsDetalhe)|)
  }

  /** The metadata files never count, as pages or as details. */
  lemma MetadataNeverCounted(fn: string)
    requires fn == "metadata.json" || fn == "processos_unicos.json"
    ensures !IsPagina(fn) && !IsDetalhe(fn)
  {
    assert fn[..5] != "page_" by {
      assert fn[0] != 'p' || fn[1] != 'a';
    }
  }

  /** The entity a directory is counted under, when it is counted at all. */
  function EidDaPasta(p: Pasta): Option<string>
  {
    if p.isDir && p.meta.Some? && p.meta.value.Metadados? then
      Some(StatsEid(NormalizeDocument(p.meta.value.documento), p.meta.value.tipo))
    else None
  }

  function Lookup(m: map<string, Baixados>, k: string): Baixados
  {
    if k in m then m[k] else Baixados(0, 0)
  }

  /** `stats_map`, filled directory by directory. */
  function StatsMap(eids: seq<Option<string>>, dirs: seq<Pasta>): map<string, Baixados>
    requires |eids| == |dirs|
  {
    if |dirs| == 0 then map[]
    else
      var m := StatsMap(eids[..|eids| - 1], dirs[..|dirs| - 1]);
      var e := eids[|eids| - 1];
      if e.Some? then m[e.value := Soma(Lookup(m, e.value), Conta(dirs[|dirs| - 1].files))] else m
  }

  /** The pages and details of every directory counted under `k`. */
  function SomaDe(eids: seq<Option<string>>, dirs: seq<Pasta>, k: string): Baixados
    requires |eids| == |dirs|
  {
    if |dirs| == 0 then Baixados(0, 0)
    else
      var rest := SomaDe(eids[..|eids| - 1], dirs[..|dirs| - 1], k);
      if eids[|eids| - 1] == Some(k) then Soma(rest, Conta(dirs[|dirs| - 1].files)) else rest
  }

  /**
   * What the map gives an entity: the sum of the counts of every directory
   * counted under its id, and zero for an id no directory has.
   */
  lemma {:induction false} StatsMapSums(eids: seq<Option<string>>, dirs: seq<Pasta>, k: string)
    requires |eids| == |dirs|
    ensures Lookup(StatsMap(eids, dirs), k) == SomaDe(eids, dirs, k)
  {
    if |dirs| > 0 {
      StatsMapSums(eids[..|eids| - 1], dirs[..|dirs| - 1], k);
    }
  }

  /** The eid of each directory, in order. */
  function EidsDe(dirs: seq<Pasta>): (r: seq<Option<string>>)
    ensures |r| == |dirs|
  {
    seq(|dirs|, j requires 0 <= j < |dirs| => EidDaPasta(dirs[j]))
  }

  /** The directory loop of `_add_download_stats`. */
  method ContarDownloads(dirs: seq<Pasta>) returns (m: map<string, Baixados>)
    ensures m == StatsMap(EidsDe(dirs), dirs)
  {
    var eids := EidsDe(dirs);
    m := Acumular(eids, dirs);
  }

  lemma StatsMapSnoc(eids: seq<Option<string>>, dirs: seq<Pasta>, i: nat)
    requires |eids| == |dirs| && i < |dirs|
    ensures var m := StatsMap(eids[..i], dirs[..i]);
            StatsMap(eids[..i + 1], dirs[..i + 1])
            == if eids[i].Some? then m[eids[i].value := Soma(Lookup(m, eids[i].value), Conta(dirs[i].files))] else m
  {
    assert eids[..i + 1][..i] == eids[..i];
    assert dirs[..i + 1][..i] == dirs[..i];
  }

  /** The body of the directory loop, over the directories and their entity ids. */
  method Acumular(eids: seq<Option<string>>, dirs: seq<Pasta>) returns (m: map<string, Baixados>)
    requires |eids| == |dirs|
    ensures m == StatsMap(eids, dirs)
  {
    m := map[];
    var i := 0;
    while i < |dirs|
      invariant 0 <= i <= |dirs|
      invariant m == StatsMap(eids[..i], dirs[..i])
    {
      StatsMapSnoc(eids, dirs, i);
      if eids[i].Some? {
        var n := Conta(dirs[i].files);
        var cur := if eids[i].value in m then m[eids[i].value] else Baixados(0, 0);
        m := m[eids[i].value := Baixados(cur.paginas + n.paginas, cur.detalhes + n.detalhes)];
      }
      i := i + 1;
    }
    assert eids[..|dirs|] == eids && dirs[..|dirs|] == dirs;
  }

  // ---------------------------------------------------------------------
  // The view
  // ---------------------------------------------------------------------

  /**
   * One line of the view: the summary, the debtor's name when the input
   * sheet was joined, and the download counts when the output directory
   * exists.
   */
  datatype Devedor = Devedor(agg: Agregado, nome: Option<string>, baixados: Option<Baixados>)

  function NomeDe(m: Option<map<string, string>>, eid: string): Option<string>
  {
    if m.None? then None else Some(if Strip(eid) in m.value then m.value[Strip(eid)] else "")
  }

  /**
   * `executar` without the value sums, the dates, the saldo sort and the
   * spreadsheet output, over the frame step 2 wrote (every export column
   * present): an empty frame gives nothing; otherwise one line per
   * entity in id order, with the summary of its rows, its name (`input` is
   * None when the sheet is missing or unreadable) and its downloads (`dirs`
   * is None when the output directory does not exist).
   */
  method Executar(f: Frame, input: Option<Sheet>, dirs: Option<seq<Pasta>>) returns (out: seq<Devedor>)
    requires StageTwoColumns(f.columns)
    ensures |f.rows| == 0 ==> out == []
    ensures |f.rows| > 0 ==>
              out == Linhas(Agregados(f.columns, f.rows, Grupos(f.columns, f.rows)),
                            if input.None? then None else NomesDe(input.value),
                            if dirs.None? then None else Some(StatsMap(EidsDe(dirs.value), dirs.value)))
    ensures TotalProcessos(Resumos(out)) == |f.rows|
  {
    if |f.rows| == 0 {
      return [];
    }
    var aggs := AgregarTodos(f);
    var nomes: Option<map<string, string>> := None;
    if input.Some? {
      nomes := NomesDevedor(input.value);
    }
    var stats: Option<map<string, Baixados>> := None;
    if dirs.Some? {
      var m := ContarDownloads(dirs.value);
      stats := Some(m);
    }
    out := Linhas(aggs, nomes, stats);
    assert Resumos(out) == aggs;
  }

  /** The lines of the view: each summary with its name and its downloads looked up by entity id. */
  function Linhas(aggs: seq<Agregado>, nomes: Option<map<string, string>>, stats: Option<map<string, Baixados>>): (r: seq<Devedor>)
    ensures |r| == |aggs|
    ensures forall i :: 0 <= i < |aggs| ==> r[i].agg == aggs[i]
    ensures forall i :: 0 <= i < |aggs| ==> (r[i].nome.Some? <==> nomes.Some?) && (r[i].baixados.Some? <==> stats.Some?)
  {
    seq(|aggs|, i requires 0 <= i < |aggs| =>
      Devedor(aggs[i], NomeDe(nomes, aggs[i].entityId),
              if stats.Some? then Some(Lookup(stats.value, aggs[i].entityId)) else None))
  }

  function Resumos(out: seq<Devedor>): seq<Agregado>
  {
    seq(|out|, i requires 0 <= i < |out| => out[i].agg)
  }
}
