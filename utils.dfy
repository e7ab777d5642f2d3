/**
 * Document and classification utilities: CPF/CNPJ normalisation and the
 * mod-11 check digits of the Receita Federal, CNPJ generation from a root and
 * a branch, the three-tier prioritisation of search hits, the party summary
 * string, CNJ-number segment tests, the "extinct" flag and the inverse index
 * from documents to processes.
 */
module Utils {
  import opened Common
  import opened Process

  // ---------------------------------------------------------------------
  // Document normalisation
  // ---------------------------------------------------------------------

  /**
   * The digits of a CPF/CNPJ as text: 11 characters for up to 11 digits and
   * 14 for 12 to 14 digits (zero-padded on the left), the last 14 digits of a
   * longer run, and "" when there are no digits at all.
   */
  function NormalizeDocument(s: string): (r: string)
    ensures AllDigits(r)
    ensures r == "" <==> Digits(s) == ""
    ensures r != "" ==> |r| == (if |Digits(s)| <= 11 then 11 else 14)
    ensures |Digits(s)| <= 14 ==> EndsWith(r, Digits(s)) && forall i :: 0 <= i < |r| - |Digits(s)| ==> r[i] == '0'
    ensures |Digits(s)| > 14 ==> r == Digits(s)[|Digits(s)| - 14..]
  {
    PadDigits(Digits(s))
  }

  function PadDigits(d: string): (r: string)
    requires AllDigits(d)
  {
    if d == "" then ""
    else if |d| <= 11 then ZFill(d, 11)
    else if |d| > 14 then ZFill(d[|d| - 14..], 14)
    else ZFill(d, 14)
  }

  /** Normalising a normalised document changes nothing. */
  lemma NormalizeIdempotent(s: string)
    ensures NormalizeDocument(NormalizeDocument(s)) == NormalizeDocument(s)
  {
    var r := NormalizeDocument(s);
    DigitsOfDigits(r);
  }

  // ---------------------------------------------------------------------
  // Check digits
  // ---------------------------------------------------------------------

  /** `sum(int(s[i]) * w[i] for i in range(n))`. */
  function WeightedSum(s: string, w: seq<int>, n: nat): int
    requires n <= |s| && n <= |w| && AllDigits(s[..n])
  {
    if n == 0 then 0
    else
      assert s[..n - 1] == s[..n][..n - 1];
      WeightedSum(s, w, n - 1) + DigitVal(s[n - 1]) * w[n - 1]
  }

  lemma {:induction false} WeightedSumPrefix(s: string, t: string, w: seq<int>, n: nat)
    requires n <= |s| && n <= |t| && n <= |w| && s[..n] == t[..n] && AllDigits(s[..n])
    ensures WeightedSum(s, w, n) == WeightedSum(t, w, n)
  {
    if n > 0 {
      assert s[..n - 1] == s[..n][..n - 1] && t[..n - 1] == t[..n][..n - 1];
      assert s[n - 1] == s[..n][n - 1] && t[n - 1] == t[..n][n - 1];
      WeightedSumPrefix(s, t, w, n - 1);
    }
  }

  /** The mod-11 rule: a remainder below 2 gives digit 0, otherwise 11 minus the remainder. */
  function CheckDigit(sum: int): (d: nat)
    ensures d < 10
    ensures sum % 11 < 2 ==> d == 0
    ensures sum % 11 >= 2 ==> d + sum % 11 == 11
  {
    var r := sum % 11;
    if r < 2 then 0 else 11 - r
  }

  /** The check digit as text: `"0"` below remainder 2, otherwise `str(11 - r)`. */
  function CheckDigitText(sum: int): (r: string)
    ensures r == [DigitChar(CheckDigit(sum))]
  {
    var m := sum % 11;
    if m < 2 then "0" else NatToString(11 - m)
  }

  /** The CPF weights `(p + 1) - i` for position `i` of a `p`-digit prefix. */
  function CpfWeights(p: nat): (w: seq<int>)
    ensures |w| == p && forall i :: 0 <= i < p ==> w[i] == p + 1 - i
  {
    seq(p, i => p + 1 - i)
  }

  /** True iff every character of `s` equals its first one (`s == s[0] * len(s)`). */
  predicate AllSame(s: string)
  {
    |s| > 0 && s == Repeat(s[0], |s|)
  }

  /** A CPF: 11 digits, not all equal, whose last two are the mod-11 check digits of the first 9 and 10. */
  predicate ValidCpf(s: string)
  {
    var c := Digits(s);
    |c| == 11 && !AllSame(c)
    && c[9..] == CheckDigitText(WeightedSum(c, CpfWeights(9), 9)) + CheckDigitText(WeightedSum(c, CpfWeights(10), 10))
  }

  const CnpjWeights: seq<int> := [6, 5, 4, 3, 2, 9, 8, 7, 6, 5, 4, 3, 2]

  /** A CNPJ: 14 digits, not all equal, whose last two are the mod-11 check digits of the first 12 and 13. */
  predicate ValidCnpj(s: string)
  {
    var c := Digits(s);
    |c| == 14 && !AllSame(c)
    && c[12..] == CheckDigitText(WeightedSum(c, CnpjWeights[1..], 12)) + CheckDigitText(WeightedSum(c, CnpjWeights, 13))
  }

  const GenWeights1: seq<int> := [5, 4, 3, 2, 9, 8, 7, 6, 5, 4, 3, 2]
  const GenWeights2: seq<int> := [6] + GenWeights1

  /**
   * The full CNPJ for root + branch with its two check digits. `gerar_cnpj_completo`
   * reads `int(base[i])` for the first 12 (then 13) characters; a shorter
   * base or a non-digit there raises, which is None here.
   */
  function GenerateCnpj(root: string, branch: string): (r: Option<string>)
    ensures r.Some? ==> |r.value| == |root| + |branch| + 2 && StartsWith(r.value, root + branch)
  {
    var base := root + branch;
    if |base| < 12 || !AllDigits(base[..12]) then None
    else
      var d1 := CheckDigit(WeightedSum(base, GenWeights1, 12));
      var base2 := base + NatToString(d1);
      if !AllDigits(base2[..13]) then None
      else
        var d2 := CheckDigit(WeightedSum(base2, GenWeights2, 13));
        var r := base + NatToString(d1) + NatToString(d2);
        assert r[..|base|] == base;
        Some(r)
  }

  /**
   * A generated CNPJ passes the validator, unless its 14 digits are all the
   * same (the validator rejects those whatever their check digits).
   */
  lemma GenerateCnpjValid(root: string, branch: string)
    requires |root| == 8 && |branch| == 4 && AllDigits(root + branch)
    ensures GenerateCnpj(root, branch).Some?
    ensures var c := GenerateCnpj(root, branch).value;
      |c| == 14 && AllDigits(c) && c[..12] == root + branch && (ValidCnpj(c) <==> !AllSame(c))
  {
    var base := root + branch;
    assert base[..12] == base;
    var d1 := CheckDigit(WeightedSum(base, GenWeights1, 12));
    var base2 := base + NatToString(d1);
    assert base2[..13] == base2;
    var d2 := CheckDigit(WeightedSum(base2, GenWeights2, 13));
    var c := base + NatToString(d1) + NatToString(d2);
    assert GenerateCnpj(root, branch) == Some(c);
    assert AllDigits(c);
    DigitsOfDigits(c);
    assert CnpjWeights[1..] == GenWeights1;
    assert CnpjWeights == GenWeights2;
    assert c[..12] == base[..12];
    WeightedSumPrefix(c, base, GenWeights1, 12);
    assert c[..13] == base2[..13];
    WeightedSumPrefix(c, base2, GenWeights2, 13);
    assert c[12..] == CheckDigitText(WeightedSum(c, CnpjWeights[1..], 12)) + CheckDigitText(WeightedSum(c, CnpjWeights, 13));
  }

  /** `obter_raiz_cnpj`: the 8-digit root of a 14-character document, else "". */
  function CnpjRoot(doc: string): (r: string)
    ensures |doc| == 14 ==> |r| == 8 && StartsWith(doc, r)
    ensures |doc| != 14 ==> r == ""
  {
    if |doc| == 14 then doc[..8] else ""
  }

  datatype DocKind = Cnpj | Cpf | NoKind

  /** `identificar_tipo_documento`: CNPJ or CPF when the normalised document has that length and valid check digits. */
  function DocumentKind(raw: string): (k: DocKind)
    ensures k == Cnpj <==> |NormalizeDocument(raw)| == 14 && ValidCnpj(NormalizeDocument(raw))
    ensures k == Cpf <==> |NormalizeDocument(raw)| == 11 && ValidCpf(NormalizeDocument(raw))
  {
    var d := NormalizeDocument(raw);
    if |d| == 14 && ValidCnpj(d) then Cnpj
    else if |d| == 11 && ValidCpf(d) then Cpf
    else NoKind
  }

  // ---------------------------------------------------------------------
  // CNJ number segments
  // ---------------------------------------------------------------------

  /**
   * `obter_ano_processo`: the integer in the second '.'-separated segment of a
   * CNJ number ("NNNNNNN-DD.AAAA.J.TR.OOOO"). No '.' raises, and so does a
   * segment that `int()` rejects; both are None.
   */
  function ProcessYear(numero: string): (r: Option<int>)
    ensures '.' !in numero ==> r.None?
    ensures r.Some? ==> |Split(numero, '.')| >= 2 && ParseInt(Split(numero, '.')[1]) == r
  {
    SplitCount(numero, '.');
    var parts := Split(numero, '.');
    if |parts| < 2 then None else ParseInt(parts[1])
  }

  /** Fewer than two '.'-parts happens exactly when there is no '.'. */
  lemma {:induction false} SplitCount(s: string, c: char)
    ensures |Split(s, c)| >= 2 <==> c in s
  {
    if |s| > 0 {
      SplitCount(s[1..], c);
      assert s == [s[0]] + s[1..];
    }
  }

  /**
   * `is_justica_trabalho` (and the labour-court flag): the number, stripped,
   * split on '-' and '.', has at least six segments and segment index 4 is
   * "5". In "NNNNNNN-DD.AAAA.J.TR.OOOO" index 3 is the judicial branch J and
   * index 4 is the court TR, so this tests the court code, not the branch.
   */
  predicate IsLabourCourt(numero: string)
  {
    var parts := SplitAny(Strip(numero), {'-', '.'});
    |parts| >= 6 && parts[4] == "5"
  }

  /** The six segments of a CNJ number split back out of it when none contains a separator. */
  lemma CnjSplit(n: string, d: string, y: string, j: string, tr: string, o: string)
    requires NoCnjSep(n) && NoCnjSep(d) && NoCnjSep(y) && NoCnjSep(j) && NoCnjSep(tr) && NoCnjSep(o)
    ensures SplitAny(n + "-" + d + "." + y + "." + j + "." + tr + "." + o, {'-', '.'}) == [n, d, y, j, tr, o]
  {
    var seps := {'-', '.'};
    var t4 := tr + ['.'] + o;
    var t3 := j + ['.'] + t4;
    var t2 := y + ['.'] + t3;
    var t1 := d + ['.'] + t2;
    assert n + "-" + d + "." + y + "." + j + "." + tr + "." + o == n + ['-'] + t1;
    SplitAnyNoSep(o, seps);
    SplitAnyAt(tr, '.', o, seps);
    SplitAnyAt(j, '.', t4, seps);
    SplitAnyAt(y, '.', t3, seps);
    SplitAnyAt(d, '.', t2, seps);
    SplitAnyAt(n, '-', t1, seps);
  }

  predicate NoCnjSep(a: string) { forall i :: 0 <= i < |a| ==> a[i] !in {'-', '.'} }

  /**
   * For a number laid out as "NNNNNNN-DD.AAAA.J.TR.OOOO" (digit segments),
   * the labour-court test is true exactly when the TR segment is "5",
   * whatever J is.
   */
  lemma LabourCourtReadsCourtSegment(n: string, d: string, y: string, j: string, tr: string, o: string)
    requires AllDigits(n) && AllDigits(d) && AllDigits(y) && AllDigits(j) && AllDigits(tr) && AllDigits(o)
    ensures IsLabourCourt(n + "-" + d + "." + y + "." + j + "." + tr + "." + o) <==> tr == "5"
  {
    var t0 := n + "-" + d + "." + y + "." + j + "." + tr + "." + o;
    assert NoSpace(t0);
    StripNoSpace(t0);
    CnjSplit(n, d, y, j, tr, o);
  }

  // ---------------------------------------------------------------------
  // Party string
  // ---------------------------------------------------------------------

  const ActiveKeywords: set<string> := {"AUTOR", "APELANTE", "EXEQUENTE", "REQUERENTE", "ATIVO"}
  const PassiveKeywords: set<string> := {"REU", "R\U{00C3}\U{2030}U", "APELADO", "EXECUTADO", "REQUERIDO", "PASSIVO"}

  predicate OnActiveSide(p: Party)
  {
    Upper(p.tipoParte) in ActiveKeywords || Upper(p.polo) == "ATIVO"
  }

  predicate OnPassiveSide(p: Party)
  {
    !OnActiveSide(p) && (Upper(p.tipoParte) in PassiveKeywords || Upper(p.polo) == "PASSIVO")
  }

  function StrippedName(p: Party): string
  {
    Strip(p.nome)
  }

  /** The stripped names of the active-side parties, in order. */
  function ActiveNames(ps: seq<Party>): seq<string>
  {
    Keep(ps, OnActiveSide, StrippedName)
  }

  /** The stripped names of the passive-side parties (not already active), in order. */
  function PassiveNames(ps: seq<Party>): seq<string>
  {
    Keep(ps, OnPassiveSide, StrippedName)
  }

  /** No party is counted on both sides. */
  lemma SidesDisjoint(ps: seq<Party>)
    ensures |ActiveNames(ps)| + |PassiveNames(ps)| <= |ps|
  {
    KeepDisjoint(ps, OnActiveSide, StrippedName, OnPassiveSide, StrippedName);
  }

  function FirstOrEmpty(xs: seq<string>): string
  {
    if |xs| == 0 then "" else xs[0]
  }

  function OthersSuffix(extras: int): string
  {
    if extras > 0 then " e OUTROS (" + IntToString(extras) + ")" else ""
  }

  /**
   * `montar_partes_string`: "" without parties; otherwise the first active
   * name, " X ", the first passive name, stripped, followed by
   * " e OUTROS (n)" when n, the active names beyond the first plus the
   * passive names beyond the first, is positive.
   */
  method PartiesString(ps: seq<Party>) returns (r: string)
    ensures |ps| == 0 ==> r == ""
    ensures |ps| > 0 ==> r == Summary(ActiveNames(ps), PassiveNames(ps))
  {
    if |ps| == 0 {
      return "";
    }
    var ativos: seq<string> := [];
    var passivos: seq<string> := [];
    var i := 0;
    while i < |ps|
      invariant 0 <= i <= |ps|
      invariant ativos == ActiveNames(ps[..i])
      invariant passivos == PassiveNames(ps[..i])
    {
      var p := ps[i];
      KeepStep(ps, OnActiveSide, StrippedName, i);
      KeepStep(ps, OnPassiveSide, StrippedName, i);
      if OnActiveSide(p) {
        ativos := ativos + [Strip(p.nome)];
      } else if OnPassiveSide(p) {
        passivos := passivos + [Strip(p.nome)];
      }
      i := i + 1;
    }
    assert ps[..|ps|] == ps;
    r := Summary(ativos, passivos);
  }

  /**
   * The first active name, " X ", the first passive name, stripped, then
   * " e OUTROS (n)" when n, the names beyond the first on each side, is positive.
   */
  function Summary(ativos: seq<string>, passivos: seq<string>): string
  {
    Strip(FirstOrEmpty(ativos) + " X " + FirstOrEmpty(passivos))
    + OthersSuffix(Max0(|ativos| - 1) + Max0(|passivos| - 1))
  }

  function Max0(x: int): nat { if x > 0 then x else 0 }

  // ---------------------------------------------------------------------
  // Classification
  // ---------------------------------------------------------------------

  const ExecFiscalClass: int := 1116

  /** Some tramitação carries class code 1116 (execução fiscal). */
  predicate IsExecFiscal(item: Item)
  {
    exists t, c :: t in item.trams && c in t.classes && c == ExecFiscalClass
  }

  /** Some ATIVO-pole party (case-insensitively) has a document whose digits are exactly `doc`. */
  predicate IsActiveSide(item: Item, doc: string)
  {
    exists t, p, dp :: t in item.trams && p in t.partes && Upper(p.polo) == "ATIVO" && dp in p.docs && Digits(dp) == doc
  }

  const ExtinctionTermsUpper: seq<string> := [
    "OBRIGACAO SATISFEITA",
    "EXTINTA A EXECUCAO/CUMPRIMENTO DA SENTENCA PELA SATISFACAO DA OBRIGACAO",
    "PEDIDO DE EXTINCAO (ART. 26, DA LEI 6.830/80)",
    "PEDIDO DE EXTINCAO (ART. 794, I, DO CPC)",
    "EXTINTO O PROCESSO PELO CANCELAMENTO DA DIVIDA ATIVA",
    "EXTINTA A EXECUCAO OU O CUMPRIMENTO DA SENTENCA PELO PAGAMENTO",
    "BAIXA DEFINITIVA",
    "EXTINTO O PROCESSO POR DESISTENCIA",
    "JUNTADA DE PETICAO DE PEDIDO DE EXTINCAO DE EXECUCAO FISCAL POR DESISTENCIA COM RENUNCIA DE PRAZO",
    "JUNTADA DE PETICAO DE PEDIDO DE EXTINCAO DE EXECUCAO FISCAL PELO PAGAMENTO COM RENUNCIA PRAZO",
    "EXTINTO O PROCESSO POR AUSENCIA DAS CONDICOES DA ACAO",
    "JUNTADA DE PETICAO DE PEDIDO DE EXTINCAO DE EXECUCAO FISCAL POR PAGAMENTO/CANCELAMENTO COM RENUNCIA DE PRAZO",
    "EXTINTO O PROCESSO POR ABANDONO DA CAUSA",
    "EXTINTO O PROCESSO POR SER A ACAO INTRANSMISSIVEL",
    "EXTINTO OS AUTOS EM RAZAO DE PERDA DE OBJETO",
    "EXTINTO O PROCESSO POR PEREMPTION, LITISPENDENCIA OU COISA JULGADA",
    "EXTINTO O PROCESSO POR AUSENCIA DE CITACAO DE SUCESSORES DO REU FALECIDO",
    "EXTINTO O PROCESSO POR INEXISTENCIA DE BENS PENHORAVEIS",
    "EXTINTO O PROCESSO POR DEVEDOR NAO ENCONTRADO",
    "EXTINTO O PROCESSO POR FALECIMENTO DO AUTOR SEM HABILITACAO DE SUCESSORES",
    "JUNTADA DE PETICAO DE PEDIDO DE EXTINCAO DE EXECUCAO FISCAL POR PRESCRICAO COM RENUNCIA DE PRAZO",
    "EXTINCAO DO PROCESSO PELO CANCELAMENTO DA DIVIDA ATIVA",
    "JUNTADA DE PETICAO DE EXTINCAO DE EXECUCAO FISCAL POR PRESCRICAO SEM RENUNCIA DE PRAZO",
    "JUNTADA DE PEDICAO DE PEDIDO DE EXTINCAO DE EXECUCAO FISCAL PELO PAGAMENTO SEM RENUNCIA PRAZO",
    "EXTINTA A EXECUCAO OU O CUMPRIMENTO DA SENTENCA"
  ]

  /** The extinction terms, lower-cased as `EXTINCAO_TERMS` holds them. */
  const ExtinctionTerms: seq<string> := LowerAll(ExtinctionTermsUpper)

  function LowerAll(xs: seq<string>): (r: seq<string>)
    ensures |r| == |xs| && forall i :: 0 <= i < |xs| ==> r[i] == Lower(xs[i])
  {
    if |xs| == 0 then [] else [Lower(xs[0])] + LowerAll(xs[1..])
  }

  predicate MentionsExtinction(descricao: string)
  {
    exists term :: term in ExtinctionTerms && Contains(Lower(descricao), term)
  }

  /** A tramitação whose movements, or whose last movement, mention an extinction term. */
  predicate TramExtinct(t: Tram)
  {
    (exists m :: m in t.movimentos && MentionsExtinction(m))
    || (t.ultimoMovimento.Some? && MentionsExtinction(t.ultimoMovimento.value))
  }

  /**
   * `extrair_flag_extinto`: 1 when some movement description, or the
   * description of some tramitação's last movement, contains an extinction
   * term (case-insensitively); 0 otherwise.
   */
  function ExtinctFlag(item: Item): (r: int)
    ensures r == 1 <==> exists t :: t in item.trams && TramExtinct(t)
    ensures r == 0 || r == 1
  {
    if exists t :: t in item.trams && TramExtinct(t) then 1 else 0
  }

  // ---------------------------------------------------------------------
  // Prioritisation
  // ---------------------------------------------------------------------

  /** `_unique`: the first occurrence of each element, in the original order. */
  function Unique<T(==,!new)>(xs: seq<T>): (r: seq<T>)
    ensures forall y :: y in r <==> y in xs
    ensures forall i, j :: 0 <= i < j < |r| ==> r[i] != r[j]
    ensures |r| <= |xs|
  {
    if |xs| == 0 then []
    else
      var init := xs[..|xs| - 1];
      var u := Unique(init);
      assert xs == init + [xs[|xs| - 1]];
      if xs[|xs| - 1] in init then u else u + [xs[|xs| - 1]]
  }

  /** A list without repeats is its own `_unique`. */
  lemma {:induction false} UniqueOfDistinct<T(!new)>(xs: seq<T>)
    requires forall i, j :: 0 <= i < j < |xs| ==> xs[i] != xs[j]
    ensures Unique(xs) == xs
  {
    if |xs| > 0 {
      var init := xs[..|xs| - 1];
      UniqueOfDistinct(init);
      assert xs == init + [xs[|xs| - 1]];
    }
  }

  /** `_unique` distributes over appending an element: it is applied left to right. */
  lemma UniqueSnoc<T(!new)>(xs: seq<T>, x: T)
    ensures Unique(xs + [x]) == if x in xs then Unique(xs) else Unique(xs) + [x]
  {
    assert (xs + [x])[..|xs|] == xs;
  }

  datatype Tier = ExecFiscal | PoloAtivo | Other

  /** The tier of a hit: class 1116 first, then the searched document on the ATIVO side (only for a non-empty document), else other. */
  function TierOf(item: Item, doc: string): (t: Tier)
    ensures t == ExecFiscal <==> IsExecFiscal(item)
    ensures t == PoloAtivo ==> doc != ""
  {
    if IsExecFiscal(item) then ExecFiscal
    else if doc != "" && IsActiveSide(item, doc) then PoloAtivo
    else Other
  }

  /** The numbers of the numbered items of one tier, in input order, repeats kept. */
  function TierNumbers(items: seq<Item>, doc: string, t: Tier): (r: seq<string>)
    ensures forall n :: n in r ==> n != ""
  {
    if |items| == 0 then []
    else
      var init := TierNumbers(items[..|items| - 1], doc, t);
      var last := items[|items| - 1];
      if last.numero != "" && TierOf(last, doc) == t then init + [last.numero] else init
  }

  /**
   * `priorizar_processos`: the numbers of the execução-fiscal, polo-ativo and
   * other hits, each list deduplicated in order; items without a number are
   * skipped.
   */
  method Prioritize(items: seq<Item>, doc: string) returns (ef: seq<string>, pa: seq<string>, ou: seq<string>)
    ensures ef == Unique(TierNumbers(items, doc, ExecFiscal))
    ensures pa == Unique(TierNumbers(items, doc, PoloAtivo))
    ensures ou == Unique(TierNumbers(items, doc, Other))
  {
    var efRaw: seq<string> := [];
    var paRaw: seq<string> := [];
    var ouRaw: seq<string> := [];
    var i := 0;
    while i < |items|
      invariant 0 <= i <= |items|
      invariant efRaw == TierNumbers(items[..i], doc, ExecFiscal)
      invariant paRaw == TierNumbers(items[..i], doc, PoloAtivo)
      invariant ouRaw == TierNumbers(items[..i], doc, Other)
    {
      var item := items[i];
      assert items[..i + 1][..i] == items[..i];
      if item.numero != "" {
        if IsExecFiscal(item) {
          efRaw := efRaw + [item.numero];
        } else if doc != "" && IsActiveSide(item, doc) {
          paRaw := paRaw + [item.numero];
        } else {
          ouRaw := ouRaw + [item.numero];
        }
      }
      i := i + 1;
    }
    assert items[..|items|] == items;
    ef, pa, ou := Unique(efRaw), Unique(paRaw), Unique(ouRaw);
  }

  /** Every numbered item lands in exactly one tier, and a number appears in some tier only through such an item. */
  lemma {:induction false} TiersCover(items: seq<Item>, doc: string, n: string)
    ensures n in TierNumbers(items, doc, ExecFiscal) || n in TierNumbers(items, doc, PoloAtivo) || n in TierNumbers(items, doc, Other)
            <==> n != "" && exists i :: 0 <= i < |items| && items[i].numero == n
  {
    if |items| > 0 {
      var init := items[..|items| - 1];
      TiersCover(init, doc, n);
      assert forall i :: 0 <= i < |init| ==> init[i] == items[i];
    }
  }

  /** With no searched document the polo-ativo tier is empty. */
  lemma {:induction false} NoDocNoPoloAtivo(items: seq<Item>)
    ensures TierNumbers(items, "", PoloAtivo) == []
  {
    if |items| > 0 { NoDocNoPoloAtivo(items[..|items| - 1]); }
  }

  /** A number is in a tier iff some item with that number has that tier. */
  lemma {:induction false} TierNumbersMember(items: seq<Item>, doc: string, t: Tier, n: string)
    ensures n in TierNumbers(items, doc, t) <==> n != "" && exists i :: 0 <= i < |items| && items[i].numero == n && TierOf(items[i], doc) == t
  {
    if |items| > 0 {
      var init := items[..|items| - 1];
      TierNumbersMember(init, doc, t, n);
      assert forall i :: 0 <= i < |init| ==> init[i] == items[i];
    }
  }

  /** When numbers identify items (as in the collection pool), the three tiers are disjoint. */
  lemma TiersDisjoint(items: seq<Item>, doc: string, n: string)
    requires forall i, j :: 0 <= i < j < |items| && items[i].numero != "" ==> items[i].numero != items[j].numero
    ensures !(n in TierNumbers(items, doc, ExecFiscal) && n in TierNumbers(items, doc, PoloAtivo))
    ensures !(n in TierNumbers(items, doc, ExecFiscal) && n in TierNumbers(items, doc, Other))
    ensures !(n in TierNumbers(items, doc, PoloAtivo) && n in TierNumbers(items, doc, Other))
  {
    TierNumbersMember(items, doc, ExecFiscal, n);
    TierNumbersMember(items, doc, PoloAtivo, n);
    TierNumbersMember(items, doc, Other, n);
  }

  // ---------------------------------------------------------------------
  // Documents found in processes
  // ---------------------------------------------------------------------

  /** A normalised document that is a valid CPF or CNPJ. */
  predicate ValidNormalized(dn: string)
  {
    (|dn| == 11 && ValidCpf(dn)) || (|dn| == 14 && ValidCnpj(dn))
  }

  /** The valid normalised documents of all parties of all tramitações of an item. */
  function DocsOf(item: Item): set<string>
  {
    ValidDocs(DocNumbers(item.trams))
  }

  /** The `documentosPrincipais` numbers of every party of every tramitação, in order. */
  function DocNumbers(trams: seq<Tram>): seq<string>
  {
    if |trams| == 0 then [] else PartyNumbers(trams[0].partes) + DocNumbers(trams[1..])
  }

  function PartyNumbers(ps: seq<Party>): seq<string>
  {
    if |ps| == 0 then [] else ps[0].docs + PartyNumbers(ps[1..])
  }

  /** The normalised forms of the non-empty numbers that are a valid CPF or CNPJ. */
  function ValidDocs(nums: seq<string>): (r: set<string>)
    ensures forall dn :: dn in r ==> ValidNormalized(dn)
  {
    if |nums| == 0 then {}
    else
      var dn := NormalizeDocument(nums[0]);
      (if nums[0] != "" && ValidNormalized(dn) then {dn} else {}) + ValidDocs(nums[1..])
  }

  /** The items, in order, in which a document appears. */
  function ItemsWithDoc(items: seq<Item>, dn: string): (r: seq<Item>)
    ensures |r| <= |items|
  {
    if |items| == 0 then []
    else
      var init := ItemsWithDoc(items[..|items| - 1], dn);
      var last := items[|items| - 1];
      if dn in DocsOf(last) then init + [last] else init
  }

  /** Every valid document found in some item. */
  function AllDocs(items: seq<Item>): set<string>
  {
    UnionOf(items, DocsOf)
  }

  /** The document index of a list of items: each document found maps to the items containing it. */
  function DocIndex(items: seq<Item>): map<string, seq<Item>>
  {
    map dn | dn in AllDocs(items) :: ItemsWithDoc(items, dn)
  }

  /** `for dn in found: resultado.setdefault(dn, []).append(item)`. */
  function AppendToAll(r: map<string, seq<Item>>, found: set<string>, item: Item): (r': map<string, seq<Item>>)
    ensures r'.Keys == r.Keys + found
  {
    map dn | dn in r.Keys + found :: if dn in found then (if dn in r then r[dn] else []) + [item] else r[dn]
  }

  lemma DocIndexStep(items: seq<Item>, i: nat)
    requires i < |items|
    ensures DocIndex(items[..i + 1]) == AppendToAll(DocIndex(items[..i]), DocsOf(items[i]), items[i])
  {
    var pre := items[..i];
    var post := items[..i + 1];
    assert post[..i] == pre && post[i] == items[i];
    var a := DocIndex(post);
    var b := AppendToAll(DocIndex(pre), DocsOf(items[i]), items[i]);
    assert AllDocs(post) == AllDocs(pre) + DocsOf(items[i]);
    assert a.Keys == b.Keys;
    forall dn | dn in a.Keys
      ensures a[dn] == b[dn]
    {
      assert ItemsWithDoc(post, dn) == ItemsWithDoc(pre, dn) + (if dn in DocsOf(items[i]) then [items[i]] else []);
      if dn !in AllDocs(pre) {
        forall j | 0 <= j < |pre|
          ensures dn !in DocsOf(pre[j])
        {
          if dn in DocsOf(pre[j]) { UnionOfComplete(pre, DocsOf, j, dn); }
        }
        NotFoundNoItems(pre, dn);
      }
    }
  }

  /**
   * `extrair_documentos_dos_processos`: every valid document found in some
   * item maps to the items containing it, in input order.
   */
  method ExtractDocuments(items: seq<Item>) returns (r: map<string, seq<Item>>)
    ensures forall dn :: dn in r <==> exists i :: 0 <= i < |items| && dn in DocsOf(items[i])
    ensures forall dn :: dn in r ==> r[dn] == ItemsWithDoc(items, dn)
    ensures r == DocIndex(items)
  {
    r := map[];
    var i := 0;
    while i < |items|
      invariant 0 <= i <= |items|
      invariant r == DocIndex(items[..i])
    {
      DocIndexStep(items, i);
      r := AppendToAll(r, DocsOf(items[i]), items[i]);
      i := i + 1;
    }
    assert items[..|items|] == items;
    forall dn | dn in r
      ensures exists i :: 0 <= i < |items| && dn in DocsOf(items[i])
    {
      var i := UnionOfSource(items, DocsOf, dn);
    }
    forall dn, i | 0 <= i < |items| && dn in DocsOf(items[i])
      ensures dn in r
    {
      UnionOfComplete(items, DocsOf, i, dn);
    }
  }

  lemma {:induction false} NotFoundNoItems(items: seq<Item>, dn: string)
    requires forall j :: 0 <= j < |items| ==> dn !in DocsOf(items[j])
    ensures ItemsWithDoc(items, dn) == []
  {
    if |items| > 0 { NotFoundNoItems(items[..|items| - 1], dn); }
  }
}
