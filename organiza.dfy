/**
 * Step 2, organising the collected processes: the records of each person
 * (detail files first, search pages as the fallback), deduplication by CNJ
 * number with the origins normalised, the client-name join against the
 * input spreadsheet, and the projection onto the export columns.
 *
 * What `extrair_campos_processo` and `extrair_campos_pagina` make of a
 * process is not modelled: a detail file carries the records extracted from
 * it and a page item the record extracted from it.
 */
module Organiza {
  import opened Common
  import opened Utils
  import opened Frames

  const Cnj := "Numero CNJ"
  const Origens := "Origens"
  const NomeCliente := "Nome Cliente"
  const IdIndividuo := "ID Individuo"
  const CnpjRaiz := "CNPJ Raiz"
  const CnpjCompleto := "CNPJ Completo"

  const ExportColumns: seq<string> := [
    "ID Individuo", "Nome Cliente", "Origens",
    "Numero CNJ", "Valor Acao", "Valor Corrigido",
    "Data Ajuizamento", "Data Primeiro Ajuizamento", "Data Ultimo Movimento",
    "Classe", "Classe Hierarquia", "Assunto", "Assunto Hierarquia",
    "Partes", "Orgao Julgador", "Instancia", "Tribunal",
    "CNPJ Completo", "CNPJ Raiz", "CNPJ Filial",
    "Flag Extinto", "Flag Reu"]

  // ---------------------------------------------------------------------
  // Export columns
  // ---------------------------------------------------------------------

  /** The export row of a row: each export column's cell, "" where the frame lacks the column. */
  function ExportRow(r: Row, cols: set<string>): Row
  {
    map c | c in ExportColumns :: if c in cols then Get(r, c) else Text("")
  }

  /**
   * The last step of `executar`: every export column missing from the
   * frame is added as "", and only the export columns are kept.
   */
  function Projetar(f: Frame): (r: Frame)
    ensures r.columns == set c | c in ExportColumns
    ensures |r.rows| == |f.rows|
    ensures forall i :: 0 <= i < |f.rows| ==> r.rows[i].Keys == r.columns
    ensures forall i, c :: 0 <= i < |f.rows| && c in f.columns && c in ExportColumns ==> r.rows[i][c] == Get(f.rows[i], c)
    ensures forall i, c :: 0 <= i < |f.rows| && c !in f.columns && c in ExportColumns ==> r.rows[i][c] == Text("")
  {
    Frame(set c | c in ExportColumns, seq(|f.rows|, i requires 0 <= i < |f.rows| => ExportRow(f.rows[i], f.columns)))
  }

  /** Projecting a projected frame changes nothing. */
  lemma ProjetarIdempotent(f: Frame)
    ensures Projetar(Projetar(f)) == Projetar(f)
  {
    var p := Projetar(f);
    var q := Projetar(p);
    forall i | 0 <= i < |p.rows|
      ensures q.rows[i] == p.rows[i]
    {
      assert q.rows[i].Keys == p.rows[i].Keys;
    }
  }

  // ---------------------------------------------------------------------
  // Deduplication
  // ---------------------------------------------------------------------

  function CnjOf(r: Row): Cell
  {
    Get(r, Cnj)
  }

  function CnjRaizOf(r: Row): (Cell, Cell)
  {
    (Get(r, Cnj), Get(r, CnpjRaiz))
  }

  /** `str(row["Origens"]).split(",")`, each piece stripped, empty pieces dropped. */
  function OrigemParts(r: Row): seq<string>
  {
    StrippedNonEmpty(Split(CellText(Get(r, Origens)), ','))
  }

  function PartsOf(m: map<Cell, seq<string>>, k: Cell): seq<string>
  {
    if k in m then m[k] else []
  }

  /** `origens_map`: for each CNJ number, the origin pieces of its rows, row by row. */
  function OrigensMap(rows: seq<Row>): map<Cell, seq<string>>
  {
    if |rows| == 0 then map[]
    else
      var m := OrigensMap(rows[..|rows| - 1]);
      var r := rows[|rows| - 1];
      m[CnjOf(r) := PartsOf(m, CnjOf(r)) + OrigemParts(r)]
  }

  /** ", ".join(sorted(pieces)) over the distinct pieces. */
  function OrigensText(parts: seq<string>): string
  {
    Join(SortedUnique(parts), ", ")
  }

  /** A row with its "Origens" written from the given pieces. */
  function WithOrigens(r: Row, parts: seq<string>): Row
  {
    r[Origens := Text(OrigensText(parts))]
  }

  /** Each row's "Origens" replaced by the merged origins of its CNJ number. */
  function MergeOrigens(rows: seq<Row>): seq<Row>
  {
    OrigensFrom(rows, OrigensMap(rows))
  }

  /** Each row's "Origens" replaced by the pieces `m` holds for its CNJ number. */
  function OrigensFrom(rows: seq<Row>, m: map<Cell, seq<string>>): seq<Row>
  {
    seq(|rows|, i requires 0 <= i < |rows| => WithOrigens(rows[i], PartsOf(m, CnjOf(rows[i]))))
  }

  /** Each row's "Origens" normalised from its own pieces alone. */
  function OwnOrigens(rows: seq<Row>): seq<Row>
  {
    seq(|rows|, i requires 0 <= i < |rows| => WithOrigens(rows[i], OrigemParts(rows[i])))
  }

  /**
   * `_deduplicar`. An empty frame or one without "Numero CNJ" is returned
   * as it is. Otherwise the first row per CNJ number is kept; then, when
   * there is a "CNPJ Raiz" column, the first row per (CNJ, root) pair; then,
   * when there is an "Origens" column, the origins are merged per CNJ number.
   * The second stage of `_deduplicar` (re-sorting by how many cells are
   * filled) runs only while a CNJ number repeats, which never happens after
   * the first stage (`StageTwoNeverFires`), so it is not written here.
   */
  function Deduplicar(f: Frame): Frame
  {
    if |f.rows| == 0 || Cnj !in f.columns then f
    else
      var s1 := FirstByKey(f.rows, CnjOf);
      var s3 := if CnpjRaiz in f.columns then FirstByKey(s1, CnjRaizOf) else s1;
      var s4 := if Origens in f.columns then MergeOrigens(s3) else s3;
      Frame(f.columns, s4)
  }

  predicate DistinctCnj(rows: seq<Row>)
  {
    forall i, j :: 0 <= i < j < |rows| ==> CnjOf(rows[i]) != CnjOf(rows[j])
  }

  /** After the first stage no CNJ number repeats, so `duplicated().any()` is false. */
  lemma StageTwoNeverFires(rows: seq<Row>)
    ensures DistinctCnj(FirstByKey(rows, CnjOf))
  {
    FirstByKeyUnique(rows, CnjOf);
  }

  /** The (CNJ, root) stage keeps every row the first stage kept. */
  lemma StageThreeKeepsAll(rows: seq<Row>)
    ensures FirstByKey(FirstByKey(rows, CnjOf), CnjRaizOf) == FirstByKey(rows, CnjOf)
  {
    var s1 := FirstByKey(rows, CnjOf);
    StageTwoNeverFires(rows);
    forall i, j | 0 <= i < j < |s1|
      ensures CnjRaizOf(s1[i]) != CnjRaizOf(s1[j])
    {
      assert CnjOf(s1[i]) != CnjOf(s1[j]);
    }
    FirstByKeyDistinct(s1, CnjRaizOf);
  }

  /** With distinct CNJ numbers, each number's pieces are its own row's. */
  lemma {:induction false} OrigensMapDistinct(rows: seq<Row>, i: nat)
    requires DistinctCnj(rows) && i < |rows|
    ensures PartsOf(OrigensMap(rows), CnjOf(rows[i])) == OrigemParts(rows[i])
  {
    var init := rows[..|rows| - 1];
    var m := OrigensMap(init);
    if i < |rows| - 1 {
      assert init[i] == rows[i];
      OrigensMapDistinct(init, i);
    } else {
      if CnjOf(rows[i]) in m {
        var j := OrigensMapSource(init, CnjOf(rows[i]));
      }
    }
  }

  /** A number in the map is the number of some row. */
  lemma {:induction false} OrigensMapSource(rows: seq<Row>, k: Cell) returns (j: nat)
    requires k in OrigensMap(rows)
    ensures j < |rows| && CnjOf(rows[j]) == k
  {
    var init := rows[..|rows| - 1];
    if k in OrigensMap(init) {
      j := OrigensMapSource(init, k);
      assert init[j] == rows[j];
    } else {
      j := |rows| - 1;
    }
  }

  /** With distinct CNJ numbers the merge only normalises each row's own origins. */
  lemma MergeOfDistinct(rows: seq<Row>)
    requires DistinctCnj(rows)
    ensures MergeOrigens(rows) == OwnOrigens(rows)
  {
    var merged, own := MergeOrigens(rows), OwnOrigens(rows);
    forall i | 0 <= i < |rows|
      ensures merged[i] == own[i]
    {
      OrigensMapDistinct(rows, i);
    }
    assert |merged| == |own|;
  }

  /**
   * What `_deduplicar` amounts to: the first row per CNJ number, in input
   * order, each with its own origins normalised (sorted, distinct, joined
   * with ", ") when the frame has an "Origens" column.
   */
  lemma DeduplicarFirstRows(f: Frame)
    requires |f.rows| > 0 && Cnj in f.columns
    ensures var s1 := FirstByKey(f.rows, CnjOf);
            Deduplicar(f) == Frame(f.columns, if Origens in f.columns then OwnOrigens(s1) else s1)
  {
    StageThreeKeepsAll(f.rows);
    StageTwoNeverFires(f.rows);
    MergeOfDistinct(FirstByKey(f.rows, CnjOf));
  }

  /** The column names the join reads and writes are different names. */
  lemma ColumnNamesDistinct()
    ensures NomeCliente != CnpjRaiz && NomeCliente != CnpjCompleto
  {
    assert |NomeCliente| == 12 && |CnpjRaiz| == 9 && |CnpjCompleto| == 13;
  }

  /** Rewriting the origins leaves the CNJ number alone. */
  lemma OwnOrigensKeepsCnj(rows: seq<Row>, i: nat)
    requires i < |rows|
    ensures CnjOf(OwnOrigens(rows)[i]) == CnjOf(rows[i])
  {
    OrigensKeepCnj(rows[i], OrigemParts(rows[i]));
  }

  /** Setting the origins of a row leaves its CNJ number alone. */
  lemma OrigensKeepCnj(r: Row, parts: seq<string>)
    ensures CnjOf(WithOrigens(r, parts)) == CnjOf(r)
  {
    assert Origens != Cnj by {
      assert |Origens| == 7 && |Cnj| == 10;
    }
  }

  /** After deduplication no CNJ number repeats. */
  lemma DeduplicarUnique(f: Frame)
    requires Cnj in f.columns
    ensures DistinctCnj(Deduplicar(f).rows)
  {
    if |f.rows| > 0 {
      DeduplicarFirstRows(f);
      var s1 := FirstByKey(f.rows, CnjOf);
      StageTwoNeverFires(f.rows);
      if Origens in f.columns {
        forall i, j | 0 <= i < j < |s1|
          ensures CnjOf(OwnOrigens(s1)[i]) != CnjOf(OwnOrigens(s1)[j])
        {
          OwnOrigensKeepsCnj(s1, i);
          OwnOrigensKeepsCnj(s1, j);
        }
      }
    }
  }

  // ---------------------------------------------------------------------
  // Client names from the input spreadsheet
  // ---------------------------------------------------------------------

  predicate IsDocColumn(c: string)
  {
    var cl := Lower(Strip(c));
    Contains(cl, "documento") || Contains(cl, "nr_doc") || Contains(cl, "cpf") || Contains(cl, "cnpj")
  }

  predicate IsNomeColumn(c: string)
  {
    Contains(Lower(Strip(c)), "nome")
  }

  /** The last header entry passing `p`, as the column loop leaves it. */
  function LastColumn(header: seq<string>, p: string -> bool): (r: Option<string>)
    ensures r.Some? <==> exists i :: 0 <= i < |header| && p(header[i])
    ensures r.Some? ==> exists i :: 0 <= i < |header| && header[i] == r.value && p(header[i])
                                    && forall j :: i < j < |header| ==> !p(header[j])
  {
    if |header| == 0 then None
    else if p(header[|header| - 1]) then Some(header[|header| - 1])
    else
      var r := LastColumn(header[..|header| - 1], p);
      assert forall i :: 0 <= i < |header| - 1 ==> header[..|header| - 1][i] == header[i];
      r
  }

  /** One sheet row as the name-map loop reads it: the normalised document and the stripped name. */
  datatype Entrada = Entrada(doc: string, nome: string)

  function Entradas(rows: seq<Row>, docCol: string, nomeCol: string): seq<Entrada>
  {
    seq(|rows|, i requires 0 <= i < |rows| =>
      Entrada(NormalizeDocument(CellText(Get(rows[i], docCol))), Strip(CellText(Get(rows[i], nomeCol)))))
  }

  /** The keys an entry writes: its document and, for a 14-digit document, its 8-digit root. */
  predicate Writes(e: Entrada, k: string)
  {
    e.doc != "" && e.nome != "" && (k == e.doc || (|e.doc| == 14 && k == e.doc[..8]))
  }

  /** `nome_map`, filled entry by entry. */
  function NomeMap(es: seq<Entrada>): map<string, string>
  {
    if |es| == 0 then map[]
    else
      var m := NomeMap(es[..|es| - 1]);
      var e := es[|es| - 1];
      if e.doc != "" && e.nome != "" then
        if |e.doc| == 14 then m[e.doc := e.nome][e.doc[..8] := e.nome] else m[e.doc := e.nome]
      else m
  }

  /** A key holds the name of the last entry that writes it. */
  lemma {:induction false} NomeMapLast(es: seq<Entrada>, i: nat, k: string)
    requires i < |es| && Writes(es[i], k)
    requires forall j :: i < j < |es| ==> !Writes(es[j], k)
    ensures k in NomeMap(es) && NomeMap(es)[k] == es[i].nome
  {
    var init := es[..|es| - 1];
    if i < |es| - 1 {
      assert init[i] == es[i];
      NomeMapLast(init, i, k);
      assert !Writes(es[|es| - 1], k);
    }
  }

  /** Every key is written by some entry and holds that entry's name. */
  lemma {:induction false} NomeMapSource(es: seq<Entrada>, k: string) returns (i: nat)
    requires k in NomeMap(es)
    ensures i < |es| && Writes(es[i], k) && NomeMap(es)[k] == es[i].nome
  {
    var init := es[..|es| - 1];
    if Writes(es[|es| - 1], k) {
      i := |es| - 1;
    } else {
      i := NomeMapSource(init, k);
      assert init[i] == es[i];
    }
  }

  /**
   * The name map of a sheet, or None when the sheet lacks a document
   * column or a name column.
   */
  function ClientMap(sheet: Sheet): Option<map<string, string>>
  {
    var docCol, nomeCol := LastColumn(sheet.header, IsDocColumn), LastColumn(sheet.header, IsNomeColumn);
    if docCol.None? || docCol.value == "" || nomeCol.None? || nomeCol.value == "" then None
    else Some(NomeMap(Entradas(sheet.rows, docCol.value, nomeCol.value)))
  }

  /** Every name in a sheet's name map is non-blank. */
  lemma ClientMapNames(sheet: Sheet, k: string)
    requires ClientMap(sheet).Some? && k in ClientMap(sheet).value
    ensures !Blank(Text(ClientMap(sheet).value[k]))
  {
    var docCol, nomeCol := LastColumn(sheet.header, IsDocColumn), LastColumn(sheet.header, IsNomeColumn);
    var es := Entradas(sheet.rows, docCol.value, nomeCol.value);
    var i := NomeMapSource(es, k);
    StripIdempotent(CellText(Get(sheet.rows[i], nomeCol.value)));
  }

  function Lookup(m: map<string, string>, k: string): string
  {
    if k in m then m[k] else ""
  }

  /** The key of the first fill: the row's full CNPJ, normalised. */
  function KeyCompleto(r: Row): string
  {
    NormalizeDocument(CellText(Get(r, CnpjCompleto)))
  }

  /** The key of the second fill: the row's CNPJ root, stripped. */
  function KeyRaiz(r: Row): string
  {
    Strip(CellText(Get(r, CnpjRaiz)))
  }

  /** A blank client name takes the name found under `k`. */
  function FillName(r: Row, m: map<string, string>, k: string): Row
  {
    if Blank(Get(r, NomeCliente)) then r[NomeCliente := Text(Lookup(m, k))] else r
  }

  /** Both fills on one row, each only when its column exists. */
  function FillRow(r: Row, m: map<string, string>, cols: set<string>): Row
  {
    var r1 := if CnpjCompleto in cols then FillName(r, m, KeyCompleto(r)) else r;
    if CnpjRaiz in cols then FillName(r1, m, KeyRaiz(r1)) else r1
  }

  /**
   * `_join_clientes`: when the input spreadsheet could be read (`input`
   * is None when it is missing or unreadable), it has a document column
   * and a name column, and the frame has a client-name column, blank
   * client names are filled from the sheet's name map.
   */
  function JoinClientes(f: Frame, input: Option<Sheet>): Frame
  {
    if input.None? || ClientMap(input.value).None? || NomeCliente !in f.columns then f
    else
      var m := ClientMap(input.value).value;
      Frame(f.columns, seq(|f.rows|, i requires 0 <= i < |f.rows| => FillRow(f.rows[i], m, f.columns)))
  }

  /** One row of the join: only the client name can change, and a filled name stays. */
  lemma FillRowKeeps(r: Row, m: map<string, string>, cols: set<string>)
    ensures forall c :: c != NomeCliente ==> Get(FillRow(r, m, cols), c) == Get(r, c)
    ensures !Blank(Get(r, NomeCliente)) ==> FillRow(r, m, cols) == r
  {
  }

  /** One row of the join: a blank client name takes the name of the row's full CNPJ when the map has it. */
  lemma FillRowFromCompleto(r: Row, m: map<string, string>, cols: set<string>)
    requires Blank(Get(r, NomeCliente)) && CnpjCompleto in cols && KeyCompleto(r) in m
    requires !Blank(Text(m[KeyCompleto(r)]))
    ensures Get(FillRow(r, m, cols), NomeCliente) == Text(m[KeyCompleto(r)])
  {
    var r1 := FillName(r, m, KeyCompleto(r));
    assert Get(r1, NomeCliente) == Text(m[KeyCompleto(r)]);
  }

  /** One row of the join: failing that, a blank client name takes the name of the row's CNPJ root. */
  lemma FillRowFromRaiz(r: Row, m: map<string, string>, cols: set<string>)
    requires Blank(Get(r, NomeCliente)) && (CnpjCompleto !in cols || KeyCompleto(r) !in m) && CnpjRaiz in cols
    ensures Get(FillRow(r, m, cols), NomeCliente) == Text(Lookup(m, KeyRaiz(r)))
  {
    ColumnNamesDistinct();
    var r1 := if CnpjCompleto in cols then FillName(r, m, KeyCompleto(r)) else r;
    assert Get(r1, CnpjRaiz) == Get(r, CnpjRaiz);
    assert KeyRaiz(r1) == KeyRaiz(r);
    assert Blank(Get(r1, NomeCliente));
  }

  /** The join keeps the columns, the rows and every cell but blank client names. */
  lemma JoinOnlyFillsBlanks(f: Frame, input: Option<Sheet>, i: nat, c: string)
    requires i < |f.rows|
    ensures var g := JoinClientes(f, input);
            && g.columns == f.columns && |g.rows| == |f.rows|
            && (c != NomeCliente ==> Get(g.rows[i], c) == Get(f.rows[i], c))
            && (!Blank(Get(f.rows[i], NomeCliente)) ==> g.rows[i] == f.rows[i])
  {
    if input.Some? && ClientMap(input.value).Some? && NomeCliente in f.columns {
      FillRowKeeps(f.rows[i], ClientMap(input.value).value, f.columns);
    }
  }

  /**
   * A blank client name is filled with the name the sheet's map holds for
   * the row's full CNPJ (by `NomeMapLast`, the name of the last sheet row
   * with that document).
   */
  lemma JoinFillsFromCompleto(f: Frame, sheet: Sheet, i: nat)
    requires i < |f.rows| && NomeCliente in f.columns && CnpjCompleto in f.columns
    requires Blank(Get(f.rows[i], NomeCliente))
    requires ClientMap(sheet).Some? && KeyCompleto(f.rows[i]) in ClientMap(sheet).value
    ensures Get(JoinClientes(f, Some(sheet)).rows[i], NomeCliente) == Text(ClientMap(sheet).value[KeyCompleto(f.rows[i])])
  {
    ClientMapNames(sheet, KeyCompleto(f.rows[i]));
    FillRowFromCompleto(f.rows[i], ClientMap(sheet).value, f.columns);
  }

  /**
   * A blank client name whose full CNPJ is absent (or not a column) is
   * filled with what the map holds for the row's CNPJ root, "" if nothing.
   */
  lemma JoinFillsFromRaiz(f: Frame, sheet: Sheet, i: nat)
    requires i < |f.rows| && NomeCliente in f.columns && CnpjRaiz in f.columns
    requires Blank(Get(f.rows[i], NomeCliente))
    requires ClientMap(sheet).Some?
    requires CnpjCompleto !in f.columns || KeyCompleto(f.rows[i]) !in ClientMap(sheet).value
    ensures Get(JoinClientes(f, Some(sheet)).rows[i], NomeCliente) == Text(Lookup(ClientMap(sheet).value, KeyRaiz(f.rows[i])))
  {
    FillRowFromRaiz(f.rows[i], ClientMap(sheet).value, f.columns);
  }

  // ---------------------------------------------------------------------
  // One person
  // ---------------------------------------------------------------------

  /** `raiz`: the 8-digit root of a CNPJ, the document itself for a CPF, else "". */
  function RaizDe(doc: string, tipo: string): string
  {
    if tipo == "CNPJ" then CnpjRoot(doc) else if tipo == "CPF" then doc else ""
  }

  /** The root is a prefix of the document: 8 digits of a 14-digit CNPJ, the whole CPF. */
  lemma RaizDeFacts(doc: string, tipo: string)
    ensures StartsWith(doc, RaizDe(doc, tipo))
    ensures tipo == "CNPJ" ==> (|doc| == 14 <==> |RaizDe(doc, tipo)| == 8)
    ensures tipo == "CPF" ==> RaizDe(doc, tipo) == doc
    ensures tipo != "CNPJ" && tipo != "CPF" ==> RaizDe(doc, tipo) == ""
  {
  }

  /** One detail file: the process number and the records extracted from it, or a read/extract failure. */
  datatype DetalheFile = Extracted(numero: string, recs: seq<Row>) | Failed

  /** One item of a search page: its process number and the record extracted from it. */
  datatype PageItem = PageItem(numero: string, rec: Row)

  /**
   * A person's directory: its name, `metadata.json` (or `{"id": <dir>}` when
   * unreadable), the origins of `processos_unicos.json`, the detail files
   * and the search pages found in it.
   */
  datatype Individuo = Individuo(dirName: string, meta: map<string, string>, unicos: map<string, seq<string>>,
                                 detalhes: seq<DetalheFile>, pages: seq<seq<PageItem>>)

  function MetaOr(meta: map<string, string>, k: string, default: string): string
  {
    if k in meta then meta[k] else default
  }

  function IdDe(ind: Individuo): string { MetaOr(ind.meta, "id", ind.dirName) }
  function NomeDe(ind: Individuo): string { MetaOr(ind.meta, "nome", "") }
  function DocDe(ind: Individuo): string { MetaOr(ind.meta, "documento", "") }
  function RaizInd(ind: Individuo): string { RaizDe(DocDe(ind), MetaOr(ind.meta, "tipo_documento", "")) }

  /** `", ".join(pu.get(np, {}).get("origens", []))`. */
  function OrigensStr(unicos: map<string, seq<string>>, np: string): string
  {
    Join(if np in unicos then unicos[np] else [], ", ")
  }

  /** The records of one detail file, tagged with the person and the process's origins. */
  function TagDetail(recs: seq<Row>, id: string, nome: string, origens: string): seq<Row>
  {
    seq(|recs|, i requires 0 <= i < |recs| => recs[i][IdIndividuo := Text(id)][NomeCliente := Text(nome)][Origens := Text(origens)])
  }

  function DetailRecords(ind: Individuo, files: seq<DetalheFile>): seq<Row>
  {
    if |files| == 0 then []
    else
      var f := files[|files| - 1];
      DetailRecords(ind, files[..|files| - 1])
        + (if f.Extracted? then TagDetail(f.recs, IdDe(ind), NomeDe(ind), OrigensStr(ind.unicos, f.numero)) else [])
  }

  /** The record of one page item, tagged with the person, the origins and the root. */
  function TagPage(it: PageItem, ind: Individuo): Row
  {
    it.rec[IdIndividuo := Text(IdDe(ind))][NomeCliente := Text(NomeDe(ind))]
         [Origens := Text(OrigensStr(ind.unicos, it.numero))][CnpjRaiz := Text(RaizInd(ind))]
  }

  function PageRecords(ind: Individuo, pages: seq<seq<PageItem>>): seq<Row>
  {
    if |pages| == 0 then []
    else
      var pg := pages[|pages| - 1];
      PageRecords(ind, pages[..|pages| - 1]) + seq(|pg|, i requires 0 <= i < |pg| => TagPage(pg[i], ind))
  }

  /** The records `_processar_individuo` returns: the detail records, or the page records when there are none. */
  function RegistrosDe(ind: Individuo): seq<Row>
  {
    var d := DetailRecords(ind, ind.detalhes);
    if d != [] then d else PageRecords(ind, ind.pages)
  }

  function Failures(files: seq<DetalheFile>): nat
  {
    if |files| == 0 then 0 else Failures(files[..|files| - 1]) + (if files[|files| - 1].Failed? then 1 else 0)
  }

  /** Every record of a person carries the person's id and name. */
  lemma {:induction false} DetailRecordsTagged(ind: Individuo, files: seq<DetalheFile>, k: nat)
    requires k < |DetailRecords(ind, files)|
    ensures var r := DetailRecords(ind, files)[k];
            Get(r, IdIndividuo) == Text(IdDe(ind)) && Get(r, NomeCliente) == Text(NomeDe(ind))
  {
    var init := DetailRecords(ind, files[..|files| - 1]);
    if k < |init| {
      DetailRecordsTagged(ind, files[..|files| - 1], k);
    }
  }

  lemma {:induction false} PageRecordsTagged(ind: Individuo, pages: seq<seq<PageItem>>, k: nat)
    requires k < |PageRecords(ind, pages)|
    ensures var r := PageRecords(ind, pages)[k];
            && Get(r, IdIndividuo) == Text(IdDe(ind)) && Get(r, NomeCliente) == Text(NomeDe(ind))
            && Get(r, CnpjRaiz) == Text(RaizInd(ind))
  {
    var init := PageRecords(ind, pages[..|pages| - 1]);
    if k < |init| {
      PageRecordsTagged(ind, pages[..|pages| - 1], k);
    }
  }

  /**
   * Every record of a person carries the person's id and name; page
   * records are used only when no detail record exists, and then carry the
   * person's root.
   */
  lemma RegistrosTagged(ind: Individuo, k: nat)
    requires k < |RegistrosDe(ind)|
    ensures var r := RegistrosDe(ind)[k];
            && Get(r, IdIndividuo) == Text(IdDe(ind)) && Get(r, NomeCliente) == Text(NomeDe(ind))
            && (DetailRecords(ind, ind.detalhes) == [] ==> Get(r, CnpjRaiz) == Text(RaizInd(ind)))
  {
    if DetailRecords(ind, ind.detalhes) != [] {
      DetailRecordsTagged(ind, ind.detalhes, k);
    } else {
      PageRecordsTagged(ind, ind.pages, k);
    }
  }

  /** The records of a run, person after person. */
  function AllRecords(inds: seq<Individuo>): seq<Row>
  {
    if |inds| == 0 then [] else AllRecords(inds[..|inds| - 1]) + RegistrosDe(inds[|inds| - 1])
  }

  function AllFailures(inds: seq<Individuo>): nat
  {
    if |inds| == 0 then 0 else AllFailures(inds[..|inds| - 1]) + Failures(inds[|inds| - 1].detalhes)
  }

  /** The frame `executar` returns for a run with records: deduplicated, joined, projected. */
  function Organizado(recs: seq<Row>, input: Option<Sheet>): Frame
  {
    Projetar(JoinClientes(Deduplicar(FromRecords(recs)), input))
  }

  /** The page records of `consolidar_paginas`: each page item's record tagged with the person's id and name. */
  function PaginasDe(ind: Individuo, pages: seq<seq<PageItem>>): seq<Row>
  {
    if |pages| == 0 then []
    else
      var pg := pages[|pages| - 1];
      PaginasDe(ind, pages[..|pages| - 1])
        + seq(|pg|, i requires 0 <= i < |pg| => pg[i].rec[IdIndividuo := Text(IdDe(ind))][NomeCliente := Text(NomeDe(ind))])
  }

  function AllPaginas(inds: seq<Individuo>): seq<Row>
  {
    if |inds| == 0 then [] else AllPaginas(inds[..|inds| - 1]) + PaginasDe(inds[|inds| - 1], inds[|inds| - 1].pages)
  }

  /** The counters of `_stats`. */
  class Organizador {
    var individuos: nat
    var processosRaw: nat
    var processosDedup: nat
    var erros: nat

    constructor ()
      ensures individuos == 0 && processosRaw == 0 && processosDedup == 0 && erros == 0
    {
      individuos, processosRaw, processosDedup, erros := 0, 0, 0, 0;
    }

    /**
     * `_processar_individuo`: the detail files in order (a file that fails
     * to load or extract counts one error and is skipped), then the search
     * pages when no detail record came out.
     */
    method ProcessarIndividuo(ind: Individuo) returns (records: seq<Row>)
      modifies this
      ensures records == RegistrosDe(ind)
      ensures erros == old(erros) + Failures(ind.detalhes)
      ensures individuos == old(individuos) && processosRaw == old(processosRaw) && processosDedup == old(processosDedup)
    {
      var id, nome := IdDe(ind), NomeDe(ind);
      records := [];
      var i := 0;
      while i < |ind.detalhes|
        invariant 0 <= i <= |ind.detalhes|
        invariant records == DetailRecords(ind, ind.detalhes[..i])
        invariant erros == old(erros) + Failures(ind.detalhes[..i])
        invariant individuos == old(individuos) && processosRaw == old(processosRaw) && processosDedup == old(processosDedup)
      {
        var f := ind.detalhes[i];
        if f.Extracted? {
          records := records + TagDetail(f.recs, id, nome, OrigensStr(ind.unicos, f.numero));
        } else {
          erros := erros + 1;
        }
        i := i + 1;
        assert ind.detalhes[..i][..i - 1] == ind.detalhes[..i - 1];
      }
      assert ind.detalhes[..|ind.detalhes|] == ind.detalhes;
      if records == [] {
        var j := 0;
        while j < |ind.pages|
          invariant 0 <= j <= |ind.pages|
          invariant records == PageRecords(ind, ind.pages[..j])
        {
          var pg := ind.pages[j];
          var k := 0;
          ghost var before := records;
          while k < |pg|
            invariant 0 <= k <= |pg|
            invariant records == before + seq(k, l requires 0 <= l < k => TagPage(pg[l], ind))
          {
            records := records + [TagPage(pg[k], ind)];
            k := k + 1;
          }
          j := j + 1;
          assert ind.pages[..j][..j - 1] == ind.pages[..j - 1];
        }
        assert ind.pages[..|ind.pages|] == ind.pages;
      }
    }

    /**
     * `executar`: every person's records, then, when there are any, the
     * raw count, deduplication, the deduplicated count, the client-name
     * join and the export projection; with no records, an empty frame with
     * the export columns.
     */
    method Executar(inds: seq<Individuo>, input: Option<Sheet>) returns (df: Frame)
      modifies this
      ensures individuos == old(individuos) + |inds|
      ensures erros == old(erros) + AllFailures(inds)
      ensures AllRecords(inds) == [] ==>
                && df == Frame(set c | c in ExportColumns, [])
                && processosRaw == old(processosRaw) && processosDedup == old(processosDedup)
      ensures AllRecords(inds) != [] ==>
                && df == Organizado(AllRecords(inds), input)
                && processosRaw == |AllRecords(inds)|
                && processosDedup == |Deduplicar(FromRecords(AllRecords(inds))).rows|
    {
      var all: seq<Row> := [];
      var i := 0;
      while i < |inds|
        invariant 0 <= i <= |inds|
        invariant all == AllRecords(inds[..i])
        invariant individuos == old(individuos) + i
        invariant erros == old(erros) + AllFailures(inds[..i])
        invariant processosRaw == old(processosRaw) && processosDedup == old(processosDedup)
      {
        var recs := ProcessarIndividuo(inds[i]);
        all := all + recs;
        individuos := individuos + 1;
        i := i + 1;
        assert inds[..i][..i - 1] == inds[..i - 1];
      }
      assert inds[..|inds|] == inds;
      if all == [] {
        df := Frame(set c | c in ExportColumns, []);
      } else {
        df := Organizar(all, input);
      }
    }

    /** The part of `executar` that runs when there are records. */
    method Organizar(all: seq<Row>, input: Option<Sheet>) returns (df: Frame)
      requires all != []
      modifies this
      ensures df == Organizado(all, input)
      ensures processosRaw == |all| && processosDedup == |Deduplicar(FromRecords(all)).rows|
      ensures individuos == old(individuos) && erros == old(erros)
    {
      df := FromRecords(all);
      processosRaw := |df.rows|;
      df := Deduplicar(df);
      processosDedup := |df.rows|;
      df := JoinClientes(df, input);
      df := Projetar(df);
    }

    /**
     * `consolidar_paginas`: every person's page records tagged with id and
     * name, deduplicated by CNJ number (first kept) when there are records
     * with that column.
     */
    method ConsolidarPaginas(inds: seq<Individuo>) returns (df: Frame)
      ensures var recs := AllPaginas(inds);
              df == if recs != [] && Cnj in FromRecords(recs).columns then Frame(FromRecords(recs).columns, FirstByKey(recs, CnjOf))
                    else FromRecords(recs)
    {
      var records: seq<Row> := [];
      var i := 0;
      while i < |inds|
        invariant 0 <= i <= |inds|
        invariant records == AllPaginas(inds[..i])
      {
        var ind := inds[i];
        var j := 0;
        ghost var before := records;
        while j < |ind.pages|
          invariant 0 <= j <= |ind.pages|
          invariant records == before + PaginasDe(ind, ind.pages[..j])
        {
          var pg := ind.pages[j];
          records := records + seq(|pg|, l requires 0 <= l < |pg| => pg[l].rec[IdIndividuo := Text(IdDe(ind))][NomeCliente := Text(NomeDe(ind))]);
          j := j + 1;
          assert ind.pages[..j][..j - 1] == ind.pages[..j - 1];
        }
        assert ind.pages[..|ind.pages|] == ind.pages;
        i := i + 1;
        assert inds[..i][..i - 1] == inds[..i - 1];
      }
      assert inds[..|inds|] == inds;
      df := FromRecords(records);
      if |df.rows| > 0 && Cnj in df.columns {
        df := Frame(df.columns, FirstByKey(df.rows, CnjOf));
      }
    }
  }

  /** The frame of a run with records has no repeated CNJ number. */
  lemma OrganizadoUnique(recs: seq<Row>, input: Option<Sheet>)
    requires Cnj in FromRecords(recs).columns
    ensures var df := Organizado(recs, input);
            forall i, j :: 0 <= i < j < |df.rows| ==> df.rows[i][Cnj] != df.rows[j][Cnj]
  {
    var d := Deduplicar(FromRecords(recs));
    DeduplicarUnique(FromRecords(recs));
    var g := JoinClientes(d, input);
    var df := Projetar(g);
    forall i, j | 0 <= i < j < |df.rows|
      ensures df.rows[i][Cnj] != df.rows[j][Cnj]
    {
      JoinOnlyFillsBlanks(d, input, i, Cnj);
      JoinOnlyFillsBlanks(d, input, j, Cnj);
      assert CnjOf(d.rows[i]) != CnjOf(d.rows[j]);
    }
  }
}
