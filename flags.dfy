/**
 * The extensible flag system: a registry of named predicates over a process
 * record, evaluated together into one "Flag <label>" column each, and the
 * five flags the system registers when the module is loaded.
 *
 * A registered predicate is named by a `FlagFn`: one of the five built-in
 * flags, or an outside predicate identified by a number whose outcome comes
 * from a parameter (None when calling it raises).
 */
module Flags {
  import opened Common
  import opened Process
  import opened Utils

  // ---------------------------------------------------------------------
  // Helpers over the parties of a process
  // ---------------------------------------------------------------------

  /** `_get_partes`: every party of every tramitação, tramitação by tramitação. */
  function Partes(trams: seq<Tram>): seq<Party>
  {
    if |trams| == 0 then [] else trams[0].partes + Partes(trams[1..])
  }

  lemma {:induction false} PartesMember(trams: seq<Tram>, p: Party)
    ensures p in Partes(trams) <==> exists t :: t in trams && p in t.partes
  {
    if |trams| > 0 {
      PartesMember(trams[1..], p);
      assert forall t :: t in trams <==> t == trams[0] || t in trams[1..];
    }
  }

  /** The party's `polo` equals `polo`, case-insensitively. */
  predicate InPolo(p: Party, polo: string)
  {
    Upper(p.polo) == Upper(polo)
  }

  /** A party's name upper-cased, then stripped. */
  function NomeUpper(p: Party): string
  {
    Strip(Upper(p.nome))
  }

  /** `_get_nomes_polo`: the names of the parties on the pole `polo`, in order. */
  function NomesPolo(item: Item, polo: string): (r: seq<string>)
    ensures |r| <= |Partes(item.trams)|
  {
    Keep(Partes(item.trams), (p: Party) => InPolo(p, polo), NomeUpper)
  }

  /** A name is listed for a pole exactly when some party on that pole carries it. */
  lemma NomesPoloMember(item: Item, polo: string, n: string)
    ensures n in NomesPolo(item, polo) <==> exists p :: p in Partes(item.trams) && InPolo(p, polo) && n == NomeUpper(p)
  {
    KeepMember(Partes(item.trams), (p: Party) => InPolo(p, polo), NomeUpper, n);
  }

  /** `_doc_no_polo`: some party on the pole has a main document whose digits are `doc`. */
  predicate DocNoPolo(item: Item, doc: string, polo: string)
  {
    exists p, dp :: p in Partes(item.trams) && InPolo(p, polo) && dp in p.docs && Digits(dp) == doc
  }

  lemma UpperFixed(s: string)
    requires forall i :: 0 <= i < |s| ==> 'A' <= s[i] <= 'Z'
    ensures Upper(s) == s
  {
  }

  /** The ATIVO-side test of the flags is the one the prioritisation uses. */
  lemma DocNoPoloAtivo(item: Item, doc: string)
    ensures DocNoPolo(item, doc, "ATIVO") <==> IsActiveSide(item, doc)
  {
    UpperFixed("ATIVO");
    if DocNoPolo(item, doc, "ATIVO") {
      var p, dp :| p in Partes(item.trams) && InPolo(p, "ATIVO") && dp in p.docs && Digits(dp) == doc;
      PartesMember(item.trams, p);
    }
    if IsActiveSide(item, doc) {
      var t, p, dp :| t in item.trams && p in t.partes && Upper(p.polo) == "ATIVO" && dp in p.docs && Digits(dp) == doc;
      PartesMember(item.trams, p);
    }
  }

  /** `_is_classe`: some tramitação carries the class code. */
  predicate IsClasse(item: Item, codigo: int)
  {
    exists t, c :: t in item.trams && c in t.classes && c == codigo
  }

  /** `any(termo in nome for termo in termos)`. */
  predicate HasTerm(nome: string, termos: set<string>)
  {
    exists t :: t in termos && Contains(nome, t)
  }

  // ---------------------------------------------------------------------
  // The registered flags
  // ---------------------------------------------------------------------

  const TermosEstado: set<string> := {"ESTADO", "MUNICIPIO", "PREFEITURA", "GOVERNO", "SECRETARIA",
                                      "FAZENDA PUBLICA", "PROCURADORIA", "DISTRITO FEDERAL"}

  const TermosFazendaNacional: set<string> := {"FAZENDA NACIONAL", "UNIAO FEDERAL", "UNIAO", "PGFN",
                                               "PROCURADORIA-GERAL DA FAZENDA NACIONAL",
                                               "PROCURADORIA GERAL DA FAZENDA NACIONAL"}

  /** The bank names, with two spelled as `flags.py` spells them (mis-decoded UTF-8). */
  const TermosBancos: set<string> := {"ITAU", "ITA\U{00C3}\U{0161}", "SANTANDER", "BRADESCO", "CAIXA ECONOMICA",
                                      "CAIXA ECON\U{00C3}\U{201D}MICA", "BANCO DO BRASIL", "BANCO INTER",
                                      "NUBANK", "NU PAGAMENTOS", "SAFRA", "BTG", "VOTORANTIM",
                                      "BANRISUL", "SICOOB", "SICREDI", "BANCO PAN"}

  /** `flag_anulatoria`: the debtor's document on the ATIVO pole against a state body on the PASSIVO pole. */
  predicate Anulatoria(item: Item, doc: string)
  {
    && doc != ""
    && DocNoPolo(item, doc, "ATIVO")
    && exists n :: n in NomesPolo(item, "PASSIVO") && HasTerm(n, TermosEstado)
  }

  /** `flag_pgfn`: the national treasury on the ATIVO pole. */
  predicate Pgfn(item: Item)
  {
    exists n :: n in NomesPolo(item, "ATIVO") && HasTerm(n, TermosFazendaNacional)
  }

  /** `flag_bancos`: a large bank on the ATIVO pole. */
  predicate Bancos(item: Item)
  {
    exists n :: n in NomesPolo(item, "ATIVO") && HasTerm(n, TermosBancos)
  }

  /** `flag_exec_fiscal`: class 1116. */
  predicate ExecFiscalFlag(item: Item)
  {
    IsClasse(item, 1116)
  }

  /** `flag_trabalhista`: the segment test of `is_justica_trabalho`, applied to the process number. */
  predicate Trabalhista(item: Item)
  {
    IsLabourCourt(item.numero)
  }

  /** For a number laid out as "NNNNNNN-DD.AAAA.J.TR.OOOO", the labour flag reads the TR segment, not J. */
  lemma TrabalhistaReadsCourtSegment(item: Item, n: string, d: string, y: string, j: string, tr: string, o: string)
    requires AllDigits(n) && AllDigits(d) && AllDigits(y) && AllDigits(j) && AllDigits(tr) && AllDigits(o)
    requires item.numero == n + "-" + d + "." + y + "." + j + "." + tr + "." + o
    ensures Trabalhista(item) <==> tr == "5"
  {
    LabourCourtReadsCourtSegment(n, d, y, j, tr, o);
  }

  /** Some party on the pole has a name (upper-cased, stripped) containing one of the terms. */
  predicate PartyWithTerm(item: Item, polo: string, termos: set<string>)
  {
    exists p :: p in Partes(item.trams) && Upper(p.polo) == polo && HasTerm(NomeUpper(p), termos)
  }

  lemma NamesWithTerm(item: Item, polo: string, termos: set<string>)
    requires Upper(polo) == polo
    ensures (exists n :: n in NomesPolo(item, polo) && HasTerm(n, termos)) <==> PartyWithTerm(item, polo, termos)
  {
    if n :| n in NomesPolo(item, polo) && HasTerm(n, termos) {
      NomesPoloMember(item, polo, n);
      var p :| p in Partes(item.trams) && InPolo(p, polo) && n == NomeUpper(p);
      assert Upper(p.polo) == polo;
    }
    if p :| p in Partes(item.trams) && Upper(p.polo) == polo && HasTerm(NomeUpper(p), termos) {
      NomesPoloMember(item, polo, NomeUpper(p));
      assert InPolo(p, polo);
    }
  }

  /** `flag_anulatoria` in terms of the parties: the document on the ATIVO side and a state body on the PASSIVO side. */
  lemma AnulatoriaParties(item: Item, doc: string)
    ensures Anulatoria(item, doc) <==>
              doc != "" && IsActiveSide(item, doc) && PartyWithTerm(item, "PASSIVO", TermosEstado)
  {
    DocNoPoloAtivo(item, doc);
    UpperFixed("PASSIVO");
    NamesWithTerm(item, "PASSIVO", TermosEstado);
  }

  /** Without a document there is no annulment action. */
  lemma AnulatoriaNeedsDoc(item: Item)
    ensures !Anulatoria(item, "")
  {
  }

  /** `flag_pgfn` and `flag_bancos` in terms of the parties on the ATIVO side. */
  lemma AtivoFlagsParties(item: Item)
    ensures Pgfn(item) <==> PartyWithTerm(item, "ATIVO", TermosFazendaNacional)
    ensures Bancos(item) <==> PartyWithTerm(item, "ATIVO", TermosBancos)
  {
    UpperFixed("ATIVO");
    NamesWithTerm(item, "ATIVO", TermosFazendaNacional);
    NamesWithTerm(item, "ATIVO", TermosBancos);
  }

  /** `flag_exec_fiscal` is the classification's execução-fiscal test. */
  lemma ExecFiscalFlagAgrees(item: Item)
    ensures ExecFiscalFlag(item) <==> IsExecFiscal(item)
  {
  }

  // ---------------------------------------------------------------------
  // The registry
  // ---------------------------------------------------------------------

  datatype Builtin = FAnulatoria | FPgfn | FBancos | FExecFiscal | FTrabalhista

  /** The function stored under a key: a built-in flag, or an outside predicate. */
  datatype FlagFn = BuiltinFn(b: Builtin) | OutsideFn(id: nat)

  /** What `register_flag` stores: `{fn, key, label, description, color}`. */
  datatype FlagEntry = FlagEntry(fn: FlagFn, key: string, caption: string, description: string, color: string)

  /** What `listar_flags` reports for one flag. */
  datatype FlagInfo = FlagInfo(key: string, caption: string, description: string, color: string)

  function BuiltinHolds(b: Builtin, item: Item, doc: string): bool
  {
    match b
    case FAnulatoria => Anulatoria(item, doc)
    case FPgfn => Pgfn(item)
    case FBancos => Bancos(item)
    case FExecFiscal => ExecFiscalFlag(item)
    case FTrabalhista => Trabalhista(item)
  }

  /** Calling a registered function: its truth value, or None when it raises. */
  function Apply(fn: FlagFn, item: Item, doc: string, outside: (nat, Item, string) -> Option<bool>): Option<bool>
  {
    match fn
    case BuiltinFn(b) => Some(BuiltinHolds(b, item, doc))
    case OutsideFn(id) => outside(id, item, doc)
  }

  /** `1 if fn(...) else 0`, and 0 when the call raised. */
  function Bit(o: Option<bool>): int
  {
    if o == Some(true) then 1 else 0
  }

  /** The column a flag's value goes to. */
  function Column(e: FlagEntry): string
  {
    "Flag " + e.caption
  }

  /** The `avaliar_flags` dict after the keys `keys` have been visited in order. */
  function Evaluated(keys: seq<string>, entries: map<string, FlagEntry>, item: Item, doc: string,
                     outside: (nat, Item, string) -> Option<bool>): map<string, int>
    requires forall k :: k in keys ==> k in entries
  {
    if |keys| == 0 then map[]
    else
      var e := entries[keys[|keys| - 1]];
      Evaluated(keys[..|keys| - 1], entries, item, doc, outside)[Column(e) := Bit(Apply(e.fn, item, doc, outside))]
  }

  /** There is one column per visited flag, and nothing else. */
  lemma {:induction false} EvaluatedColumns(keys: seq<string>, entries: map<string, FlagEntry>, item: Item, doc: string,
                                            outside: (nat, Item, string) -> Option<bool>, c: string)
    requires forall k :: k in keys ==> k in entries
    ensures c in Evaluated(keys, entries, item, doc, outside) <==> exists k :: k in keys && Column(entries[k]) == c
  {
    if |keys| > 0 {
      var ks := keys[..|keys| - 1];
      EvaluatedColumns(ks, entries, item, doc, outside, c);
      assert forall k :: k in keys <==> k in ks || k == keys[|keys| - 1];
    }
  }

  /** Every value is 0 or 1. */
  lemma {:induction false} EvaluatedBits(keys: seq<string>, entries: map<string, FlagEntry>, item: Item, doc: string,
                                         outside: (nat, Item, string) -> Option<bool>, c: string)
    requires forall k :: k in keys ==> k in entries
    requires c in Evaluated(keys, entries, item, doc, outside)
    ensures Evaluated(keys, entries, item, doc, outside)[c] in {0, 1}
  {
    var ks := keys[..|keys| - 1];
    if c != Column(entries[keys[|keys| - 1]]) {
      EvaluatedBits(ks, entries, item, doc, outside, c);
    }
  }

  /**
   * A flag whose label no later flag shares has its own outcome in its
   * column (a later flag with the same label would overwrite it).
   */
  lemma {:induction false} EvaluatedValue(keys: seq<string>, entries: map<string, FlagEntry>, item: Item, doc: string,
                                          outside: (nat, Item, string) -> Option<bool>, i: nat)
    requires forall k :: k in keys ==> k in entries
    requires i < |keys|
    requires forall j :: i < j < |keys| ==> entries[keys[j]].caption != entries[keys[i]].caption
    ensures var e := entries[keys[i]];
            var r := Evaluated(keys, entries, item, doc, outside);
            Column(e) in r && r[Column(e)] == Bit(Apply(e.fn, item, doc, outside))
  {
    var ks := keys[..|keys| - 1];
    var last := entries[keys[|keys| - 1]];
    if i < |keys| - 1 {
      assert ks[i] == keys[i];
      assert forall j :: i < j < |ks| ==> ks[j] == keys[j];
      EvaluatedValue(ks, entries, item, doc, outside, i);
      assert Column(last) != Column(entries[keys[i]]) by {
        assert last.caption != entries[keys[i]].caption;
        assert Column(last)[5..] == last.caption;
      }
    }
  }

  const BuiltinKeys: seq<string> := ["anulatoria", "pgfn", "bancos", "exec_fiscal", "trabalhista"]

  /** The registry as loading the module leaves it. */
  const BuiltinEntries: map<string, FlagEntry> := map[
    "anulatoria" := FlagEntry(BuiltinFn(FAnulatoria), "anulatoria", "Anulatoria",
                              "Devedor no polo ativo atacando o estado (acao anulatoria)", "orange"),
    "pgfn" := FlagEntry(BuiltinFn(FPgfn), "pgfn", "PGFN",
                        "Fazenda Nacional / Uniao Federal no polo ativo contra o devedor", "red"),
    "bancos" := FlagEntry(BuiltinFn(FBancos), "bancos", "Bancos",
                          "Grande banco no polo ativo contra o devedor", "purple"),
    "exec_fiscal" := FlagEntry(BuiltinFn(FExecFiscal), "exec_fiscal", "Exec. Fiscal",
                               "Execucao fiscal (classe 1116)", "yellow"),
    "trabalhista" := FlagEntry(BuiltinFn(FTrabalhista), "trabalhista", "Trabalhista",
                               "Processo na Justica do Trabalho (segmento 5 do CNJ)", "green")]

  /** `FLAG_REGISTRY`: the keys in insertion order and the entry of each. */
  class FlagRegistry {
    var order: seq<string>
    var entries: map<string, FlagEntry>

    /** The order lists each stored key once, and each entry is stored under its own key. */
    ghost predicate Valid()
      reads this
    {
      && Distinct(order)
      && (forall k :: k in entries <==> k in order)
      && (forall k :: k in entries ==> entries[k].key == k)
    }

    /** The registry once the five decorators of the module have run. */
    constructor ()
      ensures Valid() && order == BuiltinKeys && entries == BuiltinEntries
    {
      order := BuiltinKeys;
      entries := BuiltinEntries;
    }

    /**
     * `register_flag(key, label, description, color)(fn)`: the entry is
     * stored under `key`, replacing an earlier one (which keeps its place
     * in the order), and `fn` is handed back unchanged.
     */
    method Register(key: string, caption: string, description: string, color: string, fn: FlagFn) returns (r: FlagFn)
      modifies this
      ensures r == fn
      ensures entries == old(entries)[key := FlagEntry(fn, key, caption, description, color)]
      ensures order == if key in old(entries) then old(order) else old(order) + [key]
      ensures old(Valid()) ==> Valid()
    {
      if key !in entries {
        order := order + [key];
      }
      entries := entries[key := FlagEntry(fn, key, caption, description, color)];
      r := fn;
    }

    /** `listar_flags`: one description per flag, in registry order. */
    function Listar(): (r: seq<FlagInfo>)
      reads this
      requires Valid()
      ensures |r| == |order|
      ensures forall i :: 0 <= i < |order| ==>
                r[i] == FlagInfo(order[i], entries[order[i]].caption, entries[order[i]].description, entries[order[i]].color)
    {
      var o, es := order, entries;
      seq(|o|, i requires 0 <= i < |o| && o[i] in es =>
        var e := es[o[i]];
        FlagInfo(e.key, e.caption, e.description, e.color))
    }

    /**
     * `avaliar_flags(processo, doc)`: every flag in registry order sets its
     * column to 1 when its predicate holds and to 0 when it fails or raises.
     */
    method Avaliar(item: Item, doc: string, outside: (nat, Item, string) -> Option<bool>) returns (result: map<string, int>)
      requires Valid()
      ensures result == Evaluated(order, entries, item, doc, outside)
    {
      result := map[];
      var i := 0;
      while i < |order|
        invariant 0 <= i <= |order|
        invariant result == Evaluated(order[..i], entries, item, doc, outside)
      {
        var e := entries[order[i]];
        result := result[Column(e) := Bit(Apply(e.fn, item, doc, outside))];
        i := i + 1;
        assert order[..i][..i - 1] == order[..i - 1];
      }
      assert order[..|order|] == order;
    }
  }
}
