/**
 * Configuration: the `.env` file read line by line, the coercion of text to
 * booleans and integers, the configuration record with its derived worker
 * count, its validation and its serialisation to a dictionary.
 *
 * The process environment is a parameter (`osEnv`); the file is its lines.
 */
module Settings {
  import opened Common
  import opened Utils

  // ---------------------------------------------------------------------
  // Coercions
  // ---------------------------------------------------------------------

  /** A value handed to `_bool` or `_int`: a bool, an int, a string or None. */
  datatype PyVal = PyBool(b: bool) | PyInt(i: int) | PyStr(s: string) | PyNone

  /** `str(val)`. */
  function Str(v: PyVal): string
  {
    match v
    case PyBool(b) => if b then "True" else "False"
    case PyInt(i) => IntToString(i)
    case PyStr(s) => s
    case PyNone => "None"
  }

  /** The words `_bool` reads as true, compared after lower-casing. */
  const TrueWords: set<string> := {"true", "1", "yes", "sim"}

  /** `_bool`: a bool as it is; anything else is true iff its text, lower-cased, is a true word. */
  function Bool(v: PyVal): bool
  {
    if v.PyBool? then v.b else Lower(Str(v)) in TrueWords
  }

  /** `_int`: `int(val)`, or the default when `int()` raises (None, or text that is not an integer). */
  function Int(v: PyVal, default: int): int
  {
    match v
    case PyBool(b) => if b then 1 else 0
    case PyInt(i) => i
    case PyStr(s) => if ParseInt(s).Some? then ParseInt(s).value else default
    case PyNone => default
  }

  /** The settings form writes booleans as "true"/"false", and `_bool` reads them back; None and "" are false. */
  lemma BoolReadsWritten(b: bool)
    ensures Bool(PyStr(if b then "true" else "false")) == b
    ensures !Bool(PyStr("")) && !Bool(PyNone)
  {
    if b {
      BoolReadsWord("true");
    } else {
      BoolReadsWord("false");
    }
    BoolReadsWord("");
  }

  lemma BoolReadsWord(w: string)
    requires w == "true" || w == "false" || w == ""
    ensures Bool(PyStr(w)) <==> w == "true"
  {
    LowerOfSmall(w);
  }

  /**
   * `_bool` ignores letter case: lower-casing changes nothing, and neither
   * does upper-casing, except for the three letters whose capital lower-cases
   * to another letter (U+00B5, U+0131 and U+017F).
   */
  lemma BoolIgnoresCase(s: string)
    ensures Bool(PyStr(s)) == Bool(PyStr(Lower(s)))
    ensures RoundTripsCase(s) ==> Bool(PyStr(s)) == Bool(PyStr(Upper(s)))
  {
    LowerIdempotent(s);
  }

  predicate RoundTripsCase(s: string)
  {
    forall i :: 0 <= i < |s| ==> s[i] != '\U{00B5}' && s[i] != '\U{0131}' && s[i] != '\U{017F}'
  }

  lemma LowerIdempotent(s: string)
    ensures Lower(Lower(s)) == Lower(s)
    ensures RoundTripsCase(s) ==> Lower(Upper(s)) == Lower(s)
  {
    forall i | 0 <= i < |s|
      ensures Lower(Lower(s))[i] == Lower(s)[i]
    {
      LowerCharIdempotent(s[i]);
    }
    if RoundTripsCase(s) {
      forall i | 0 <= i < |s|
        ensures Lower(Upper(s))[i] == Lower(s)[i]
      {
        LowerUpperChar(s[i]);
      }
    }
  }

  /** `_int(str(n))` gives `n` back whatever the default; text that is not an integer, and None, give the default. */
  lemma IntReadsWritten(n: int, default: int, s: string)
    ensures Int(PyStr(IntToString(n)), default) == n
    ensures ParseInt(s).None? ==> Int(PyStr(s), default) == default
    ensures Int(PyNone, default) == default
  {
    ParseIntToString(n);
  }

  // ---------------------------------------------------------------------
  // The .env file
  // ---------------------------------------------------------------------

  /** What one line of `.env` contributes: a key and a value, or nothing. */
  datatype EnvLine = Assign(key: string, value: string) | Skip

  /**
   * One line, stripped: blank lines, comments and lines without '=' are
   * skipped; otherwise the key is the stripped text before the first '='
   * and the value the stripped text after it.
   */
  function ParseLine(raw: string): EnvLine
  {
    ParseStripped(Strip(raw))
  }

  function ParseStripped(line: string): (r: EnvLine)
    ensures r.Assign? <==> line != "" && !StartsWith(line, "#") && '=' in line
    ensures r.Assign? ==> exists i :: 0 <= i < |line| && line[i] == '=' && '=' !in line[..i]
                                      && r.key == Strip(line[..i]) && r.value == Strip(line[i + 1..])
  {
    if line == "" || StartsWith(line, "#") || '=' !in line then Skip
    else
      var i := IndexOf(line, '=').value;
      Assign(Strip(line[..i]), Strip(line[i + 1..]))
  }

  /** Each line of the file, parsed. */
  function Parsed(lines: seq<string>): (ps: seq<EnvLine>)
    ensures |ps| == |lines|
    ensures forall i {:trigger ps[i]} :: 0 <= i < |lines| ==> ps[i] == ParseLine(lines[i])
  {
    if |lines| == 0 then [] else Parsed(lines[..|lines| - 1]) + [ParseLine(lines[|lines| - 1])]
  }

  /** The values a run of parsed lines sets, later lines winning. */
  function Assigned(ps: seq<EnvLine>): map<string, string>
  {
    if |ps| == 0 then map[]
    else
      var m := Assigned(ps[..|ps| - 1]);
      match ps[|ps| - 1]
      case Assign(k, v) => m[k := v]
      case Skip => m
  }

  /** The values the file's lines set, later lines winning. */
  function EnvOf(lines: seq<string>): map<string, string>
  {
    Assigned(Parsed(lines))
  }

  /** The loop of `from_env` that fills `env_vals`. */
  method ReadEnv(lines: seq<string>) returns (envVals: map<string, string>)
    ensures envVals == EnvOf(lines)
  {
    ghost var ps := Parsed(lines);
    envVals := map[];
    var i := 0;
    while i < |lines|
      invariant 0 <= i <= |lines|
      invariant envVals == Assigned(ps[..i])
    {
      var l := ParseLine(lines[i]);
      assert l == ps[i];
      AssignedStep(ps, i);
      if l.Assign? {
        envVals := envVals[l.key := l.value];
      }
      i := i + 1;
    }
    assert ps[..|lines|] == ps;
  }

  lemma AssignedStep(ps: seq<EnvLine>, i: nat)
    requires i < |ps|
    ensures Assigned(ps[..i + 1]) == if ps[i].Assign? then Assigned(ps[..i])[ps[i].key := ps[i].value]
                                     else Assigned(ps[..i])
  {
    assert ps[..i + 1][..i] == ps[..i];
    assert ps[..i + 1][i] == ps[i];
  }

  lemma {:induction false} AssignedLast(ps: seq<EnvLine>, k: string, i: nat)
    requires i < |ps| && ps[i].Assign? && ps[i].key == k
    requires forall j :: i < j < |ps| ==> !(ps[j].Assign? && ps[j].key == k)
    ensures k in Assigned(ps) && Assigned(ps)[k] == ps[i].value
  {
    var init := ps[..|ps| - 1];
    if i < |ps| - 1 {
      assert forall j :: 0 <= j < |init| ==> init[j] == ps[j];
      AssignedLast(init, k, i);
    }
  }

  lemma {:induction false} AssignedSource(ps: seq<EnvLine>, k: string)
    requires k in Assigned(ps)
    ensures exists i :: 0 <= i < |ps| && ps[i].Assign? && ps[i].key == k
  {
    var init := ps[..|ps| - 1];
    if !(ps[|ps| - 1].Assign? && ps[|ps| - 1].key == k) {
      AssignedSource(init, k);
      var i :| 0 <= i < |init| && init[i].Assign? && init[i].key == k;
      assert init[i] == ps[i];
    }
  }

  /**
   * A key is set exactly when some line assigns it, and its value is the
   * one on the last such line.
   */
  lemma EnvOfLast(lines: seq<string>, k: string, i: nat)
    requires i < |lines| && ParseLine(lines[i]).Assign? && ParseLine(lines[i]).key == k
    requires forall j :: i < j < |lines| ==> !(ParseLine(lines[j]).Assign? && ParseLine(lines[j]).key == k)
    ensures k in EnvOf(lines) && EnvOf(lines)[k] == ParseLine(lines[i]).value
  {
    AssignedLast(Parsed(lines), k, i);
  }

  lemma EnvOfSource(lines: seq<string>, k: string)
    requires k in EnvOf(lines)
    ensures exists i :: 0 <= i < |lines| && ParseLine(lines[i]).Assign? && ParseLine(lines[i]).key == k
  {
    var ps := Parsed(lines);
    AssignedSource(ps, k);
    var i :| 0 <= i < |ps| && ps[i].Assign? && ps[i].key == k;
  }

  /**
   * A line as the settings writers produce it, `KEY=value` and a newline,
   * reads back as that key and value.
   */
  lemma ParseWrittenLine(key: string, value: string)
    requires key != "" && key[0] != '#' && NoSpace(key) && '=' !in key && LineValue(value)
    ensures ParseLine(key + "=" + value + "\n") == Assign(key, value)
  {
    StripWritten(key, value);
    ParseAssignment(key, value);
  }

  lemma StripWritten(key: string, value: string)
    requires key != "" && NoSpace(key) && Strip(value) == value
    ensures Strip(key + "=" + value + "\n") == key + "=" + value
  {
    var t := key + "=" + value;
    var s := t + "\n";
    assert key + "=" + value + "\n" == s;
    assert s[0] == key[0];
    StripLeftKeeps(s);
    StripRightDrops(t, '\n');
    StripAssignment(key, value);
  }

  lemma ParseAssignment(key: string, value: string)
    requires key != "" && key[0] != '#' && NoSpace(key) && '=' !in key && Strip(value) == value
    ensures ParseStripped(key + "=" + value) == Assign(key, value)
  {
    SplitAtFirstEquals(key, value);
    StripNoSpace(key);
  }

  /** `key=value` splits at the '=' after the key, each side stripped. */
  lemma SplitAtFirstEquals(key: string, value: string)
    requires key != "" && key[0] != '#' && '=' !in key
    ensures ParseStripped(key + "=" + value) == Assign(Strip(key), Strip(value))
  {
    var t := key + "=" + value;
    assert IndexOf(t, '=') == Some(|key|) by {
      EqualsAfterKey(key, value);
    }
    assert t[..|key|] == key && t[|key| + 1..] == value;
    assert !StartsWith(t, "#") by { assert t[..1] == [key[0]]; }
  }

  /** In `key=value`, the first '=' is the one after the key. */
  lemma EqualsAfterKey(key: string, value: string)
    requires '=' !in key
    ensures IndexOf(key + "=" + value, '=') == Some(|key|)
  {
    var t := key + "=" + value;
    assert t[|key|] == '=' && t[..|key|] == key;
  }

  /** The first '=' of `t` is at `k` when `t[k]` is '=' and none comes before. */
  lemma FirstEquals(t: string, k: nat)
    requires k < |t| && t[k] == '=' && '=' !in t[..k]
    ensures forall i :: 0 <= i < |t| && t[i] == '=' && '=' !in t[..i] ==> i == k
  {
    assert forall i :: 0 <= i < k ==> t[..k][i] == t[i];
    assert forall i :: k < i <= |t| ==> t[..i][k] == t[k];
  }

  /** `_g`: the file's value, else the process environment's, else the default. */
  function Lookup(envVals: map<string, string>, osEnv: map<string, string>, key: string, default: string): (r: string)
    ensures key in envVals ==> r == envVals[key]
    ensures key !in envVals && key in osEnv ==> r == osEnv[key]
    ensures key !in envVals && key !in osEnv ==> r == default
  {
    if key in envVals then envVals[key] else if key in osEnv then osEnv[key] else default
  }

  // ---------------------------------------------------------------------
  // The configuration record
  // ---------------------------------------------------------------------

  /** The attributes `Config.__init__` assigns; `blacklist` is the list the set is built from. */
  datatype Config = Config(
    tokens: seq<string>,
    baseUrl: string,
    tribunal: string,
    idClasse: string,
    inputFile: string,
    inputFileSecundario: string,
    outputDir: string,
    maxPorPagina: int,
    maxPaginasPorCaso: int,
    maxProcessosTotais: int,
    maxProcessosAlerta: int,
    maxProcessosPerDoc: int,
    maxProcessosPerRoot: int,
    maxFiliais: int,
    downloadDetalhes: bool,
    enableBuscaDocumento: bool,
    enableBuscaNome: bool,
    enableBuscaFilial: bool,
    workersPerToken: int,
    debug: bool,
    dashboardEnabled: bool,
    dashboardInterval: int,
    filtroMunicipio: string,
    blacklist: seq<string>,
    cacheDir: string,
    numWorkers: int)

  /** The blacklist as the set the code tests membership in. */
  function Blacklist(c: Config): set<string>
  {
    set x | x in c.blacklist
  }

  /**
   * `num_workers`: tokens times workers per token, at most 8 and at least 1;
   * 1 without tokens.
   */
  function NumWorkers(tokenCount: nat, workersPerToken: int): (r: int)
    ensures 1 <= r <= 8
    ensures tokenCount == 0 ==> r == 1
    ensures tokenCount > 0 && 1 <= tokenCount * workersPerToken <= 8 ==> r == tokenCount * workersPerToken
    ensures tokenCount > 0 && tokenCount * workersPerToken > 8 ==> r == 8
  {
    if tokenCount > 0 then
      var m := if tokenCount * workersPerToken < 8 then tokenCount * workersPerToken else 8;
      if m > 1 then m else 1
    else 1
  }

  const DefaultBaseUrl: string := "https://api-processo-integracao.data-lake.pdpj.jus.br/processo-api/api/v1/processos"

  /** The token list of `PDPJ_TOKENS`: comma-separated, stripped, empties dropped. */
  function TokenList(s: string): (r: seq<string>)
    ensures forall k :: 0 <= k < |r| ==> r[k] != ""
  {
    StrippedNonEmpty(Split(s, ','))
  }

  /** A text setting: `_g(key, default)`. */
  function TextSetting(envVals: map<string, string>, osEnv: map<string, string>, key: string, default: string): string
  {
    Lookup(envVals, osEnv, key, default)
  }

  /** An integer setting: `_int(_g(key, str(default)), default)`. */
  function IntSetting(envVals: map<string, string>, osEnv: map<string, string>, key: string, default: int): int
  {
    Int(PyStr(Lookup(envVals, osEnv, key, IntToString(default))), default)
  }

  /** A boolean setting: `_bool(_g(key, default))`, the default written "true" or "false". */
  function BoolSetting(envVals: map<string, string>, osEnv: map<string, string>, key: string, default: bool): bool
  {
    Bool(PyStr(Lookup(envVals, osEnv, key, if default then "true" else "false")))
  }

  /** `Config.from_env` over the lines of `.env` already read into `envVals`. */
  function FromEnv(envVals: map<string, string>, osEnv: map<string, string>): Config
  {
    var tokens := TokenList(TextSetting(envVals, osEnv, "PDPJ_TOKENS", ""));
    var wpt := IntSetting(envVals, osEnv, "WORKERS_PER_TOKEN", 1);
    Config(
      tokens,
      TextSetting(envVals, osEnv, "PDPJ_BASE_URL", DefaultBaseUrl),
      TextSetting(envVals, osEnv, "PDPJ_TRIBUNAL", "TJPE"),
      TextSetting(envVals, osEnv, "PDPJ_ID_CLASSE", "1116"),
      TextSetting(envVals, osEnv, "INPUT_FILE", "Recife_nomes_partes_estoque.xlsx"),
      TextSetting(envVals, osEnv, "INPUT_FILE_SECUNDARIO", "entrada-Copy1.xls"),
      TextSetting(envVals, osEnv, "OUTPUT_DIR", "outputs"),
      IntSetting(envVals, osEnv, "MAX_POR_PAGINA", 100),
      IntSetting(envVals, osEnv, "MAX_PAGINAS_POR_CASO", 100),
      IntSetting(envVals, osEnv, "MAX_PROCESSOS_TOTAIS_POR_CASO", 1000),
      IntSetting(envVals, osEnv, "MAX_PROCESSOS_ALERTA_API", 5000),
      IntSetting(envVals, osEnv, "MAX_PROCESSOS_PER_DOC", 1),
      IntSetting(envVals, osEnv, "MAX_PROCESSOS_PER_CNPJ_ROOT", 2),
      IntSetting(envVals, osEnv, "MAX_FILIAIS", 1),
      BoolSetting(envVals, osEnv, "DOWNLOAD_DETALHES", false),
      BoolSetting(envVals, osEnv, "ENABLE_BUSCA_DOCUMENTO", true),
      BoolSetting(envVals, osEnv, "ENABLE_BUSCA_NOME", true),
      BoolSetting(envVals, osEnv, "ENABLE_BUSCA_FILIAL", true),
      wpt,
      BoolSetting(envVals, osEnv, "DEBUG", false),
      BoolSetting(envVals, osEnv, "DASHBOARD_ENABLED", true),
      IntSetting(envVals, osEnv, "DASHBOARD_UPDATE_INTERVAL", 10),
      TextSetting(envVals, osEnv, "FILTRO_MUNICIPIO", "DISTRITO FEDERAL X"),
      Split(TextSetting(envVals, osEnv, "BLACKLIST", "9999"), ','),
      TextSetting(envVals, osEnv, "CACHE_DIR", "."),
      NumWorkers(|tokens|, wpt))
  }

  /** A configuration read from the file and the environment has between 1 and 8 workers and no empty token. */
  lemma FromEnvBounds(envVals: map<string, string>, osEnv: map<string, string>)
    ensures var c := FromEnv(envVals, osEnv);
            1 <= c.numWorkers <= 8 && forall k :: 0 <= k < |c.tokens| ==> c.tokens[k] != ""
  {
    FromEnvTokens(envVals, osEnv);
    FromEnvWorkers(envVals, osEnv);
  }

  lemma FromEnvTokens(envVals: map<string, string>, osEnv: map<string, string>)
    ensures FromEnv(envVals, osEnv).tokens == TokenList(TextSetting(envVals, osEnv, "PDPJ_TOKENS", ""))
  {
  }

  lemma FromEnvWorkers(envVals: map<string, string>, osEnv: map<string, string>)
    ensures 1 <= FromEnv(envVals, osEnv).numWorkers <= 8
  {
    var tokens := TokenList(TextSetting(envVals, osEnv, "PDPJ_TOKENS", ""));
    assert FromEnv(envVals, osEnv).numWorkers == NumWorkers(|tokens|, IntSetting(envVals, osEnv, "WORKERS_PER_TOKEN", 1));
  }

  /**
   * A setting read from the file or the environment: an integer written
   * with `str` is read back, and a key absent from both gives the
   * default.
   */
  lemma IntSettingReads(envVals: map<string, string>, osEnv: map<string, string>, key: string, n: int, default: int)
    ensures key in envVals && envVals[key] == IntToString(n) ==> IntSetting(envVals, osEnv, key, default) == n
    ensures key !in envVals && key in osEnv && osEnv[key] == IntToString(n) ==> IntSetting(envVals, osEnv, key, default) == n
    ensures key !in envVals && key !in osEnv ==> IntSetting(envVals, osEnv, key, default) == default
  {
    ParseIntToString(n);
    ParseIntToString(default);
  }

  lemma BoolSettingReads(envVals: map<string, string>, osEnv: map<string, string>, key: string, b: bool, default: bool)
    ensures key in envVals && envVals[key] == (if b then "true" else "false") ==> BoolSetting(envVals, osEnv, key, default) == b
    ensures key !in envVals && key !in osEnv ==> BoolSetting(envVals, osEnv, key, default) == default
  {
    BoolReadsWritten(b);
    BoolReadsWritten(default);
  }

  /** A key in the file wins over the process environment. */
  lemma FileBeatsEnvironment(envVals: map<string, string>, osEnv: map<string, string>, n: int, m: int)
    requires "MAX_FILIAIS" in envVals && envVals["MAX_FILIAIS"] == IntToString(n)
    requires "MAX_FILIAIS" in osEnv && osEnv["MAX_FILIAIS"] == IntToString(m)
    ensures FromEnv(envVals, osEnv).maxFiliais == n
    ensures FromEnv(map[], osEnv).maxFiliais == m
  {
    IntSettingReads(envVals, osEnv, "MAX_FILIAIS", n, 1);
    IntSettingReads(map[], osEnv, "MAX_FILIAIS", m, 1);
  }

  /** Without `PDPJ_TOKENS` anywhere: no tokens, and so one worker. */
  lemma DefaultTokens(envVals: map<string, string>, osEnv: map<string, string>)
    requires "PDPJ_TOKENS" !in envVals && "PDPJ_TOKENS" !in osEnv
    ensures var c := FromEnv(envVals, osEnv);
      c.tokens == [] && c.numWorkers == 1
  {
    NoTokens(TextSetting(envVals, osEnv, "PDPJ_TOKENS", ""));
  }

  lemma NoTokens(s: string)
    requires s == ""
    ensures TokenList(s) == []
  {
    SplitAnyNoSep(s, {','});
  }

  /** The default blacklist is the single root `9999`. */
  lemma DefaultBlacklist(envVals: map<string, string>, osEnv: map<string, string>)
    requires "BLACKLIST" !in envVals && "BLACKLIST" !in osEnv
    ensures Blacklist(FromEnv(envVals, osEnv)) == {"9999"}
  {
    var t := TextSetting(envVals, osEnv, "BLACKLIST", "9999");
    OneEntry(t);
    var c := FromEnv(envVals, osEnv);
    assert c.blacklist == [t];
    BlacklistOne(c, t);
  }

  lemma BlacklistOne(c: Config, t: string)
    requires c.blacklist == [t]
    ensures Blacklist(c) == {t}
  {
    forall x ensures x in Blacklist(c) <==> x == t {
      assert x in c.blacklist <==> x == t;
    }
  }

  lemma OneEntry(s: string)
    requires ',' !in s
    ensures Split(s, ',') == [s]
  {
    SplitAnyNoSep(s, {','});
  }

  /** The default limits, when neither the file nor the environment sets them: one process per tier, two per root, one branch. */
  lemma DefaultLimits(envVals: map<string, string>, osEnv: map<string, string>)
    requires "MAX_PROCESSOS_PER_DOC" !in envVals && "MAX_PROCESSOS_PER_DOC" !in osEnv
    requires "MAX_PROCESSOS_PER_CNPJ_ROOT" !in envVals && "MAX_PROCESSOS_PER_CNPJ_ROOT" !in osEnv
    requires "MAX_FILIAIS" !in envVals && "MAX_FILIAIS" !in osEnv
    ensures var c := FromEnv(envVals, osEnv);
      c.maxProcessosPerDoc == 1 && c.maxProcessosPerRoot == 2 && c.maxFiliais == 1
  {
    IntSettingReads(envVals, osEnv, "MAX_PROCESSOS_PER_DOC", 1, 1);
    IntSettingReads(envVals, osEnv, "MAX_PROCESSOS_PER_CNPJ_ROOT", 2, 2);
    IntSettingReads(envVals, osEnv, "MAX_FILIAIS", 1, 1);
  }

  /** By default details are not downloaded and document search is on. */
  lemma DefaultFlags(envVals: map<string, string>, osEnv: map<string, string>)
    requires "DOWNLOAD_DETALHES" !in envVals && "DOWNLOAD_DETALHES" !in osEnv
    requires "ENABLE_BUSCA_DOCUMENTO" !in envVals && "ENABLE_BUSCA_DOCUMENTO" !in osEnv
    ensures var c := FromEnv(envVals, osEnv);
      !c.downloadDetalhes && c.enableBuscaDocumento
  {
    BoolSettingReads(envVals, osEnv, "DOWNLOAD_DETALHES", false, false);
    BoolSettingReads(envVals, osEnv, "ENABLE_BUSCA_DOCUMENTO", true, true);
  }

  // ---------------------------------------------------------------------
  // Validation
  // ---------------------------------------------------------------------

  const NoTokenMsg: string := "Nenhum token PDPJ configurado."
  const BadTokenMsg: string := "Um ou mais tokens PDPJ parecem invalidos."
  const NoBaseUrlMsg: string := "base_url nao definida."
  const NoInputMsg: string := "input_file nao definido."

  /**
   * `validar`: no errors iff there are tokens, each longer than 50
   * characters, a base URL and an input file; a missing token list is
   * reported instead of, never together with, invalid tokens.
   */
  function Validar(c: Config): (errs: seq<string>)
    ensures errs == [] <==> |c.tokens| > 0 && (forall t :: t in c.tokens ==> |t| > 50) && c.baseUrl != "" && c.inputFile != ""
    ensures NoTokenMsg in errs <==> |c.tokens| == 0
    ensures BadTokenMsg in errs <==> |c.tokens| > 0 && exists t :: t in c.tokens && |t| <= 50
    ensures !(NoTokenMsg in errs && BadTokenMsg in errs)
    ensures NoBaseUrlMsg in errs <==> c.baseUrl == ""
    ensures NoInputMsg in errs <==> c.inputFile == ""
    ensures |errs| <= 3
  {
    var e1 := if |c.tokens| == 0 then [NoTokenMsg]
              else if !(forall t :: t in c.tokens ==> |t| > 50) then [BadTokenMsg]
              else [];
    var e2 := if c.baseUrl == "" then [NoBaseUrlMsg] else [];
    var e3 := if c.inputFile == "" then [NoInputMsg] else [];
    e1 + e2 + e3
  }

  // ---------------------------------------------------------------------
  // Serialisation
  // ---------------------------------------------------------------------

  /** An attribute value: text, integer, bool, list of text, or a set built from a list of text. */
  datatype AttrVal = AStr(s: string) | AInt(i: int) | ABool(b: bool) | AList(xs: seq<string>) | ASet(from: seq<string>)

  /** `__dict__` of a configuration. */
  function Attributes(c: Config): map<string, AttrVal>
  {
    map[
      "tokens" := AList(c.tokens), "base_url" := AStr(c.baseUrl), "tribunal" := AStr(c.tribunal),
      "id_classe" := AStr(c.idClasse), "input_file" := AStr(c.inputFile),
      "input_file_secundario" := AStr(c.inputFileSecundario), "output_dir" := AStr(c.outputDir),
      "max_por_pagina" := AInt(c.maxPorPagina), "max_paginas_por_caso" := AInt(c.maxPaginasPorCaso),
      "max_processos_totais" := AInt(c.maxProcessosTotais), "max_processos_alerta" := AInt(c.maxProcessosAlerta),
      "max_processos_per_doc" := AInt(c.maxProcessosPerDoc), "max_processos_per_root" := AInt(c.maxProcessosPerRoot),
      "max_filiais" := AInt(c.maxFiliais), "download_detalhes" := ABool(c.downloadDetalhes),
      "enable_busca_documento" := ABool(c.enableBuscaDocumento), "enable_busca_nome" := ABool(c.enableBuscaNome),
      "enable_busca_filial" := ABool(c.enableBuscaFilial), "workers_per_token" := AInt(c.workersPerToken),
      "debug" := ABool(c.debug), "dashboard_enabled" := ABool(c.dashboardEnabled),
      "dashboard_interval" := AInt(c.dashboardInterval), "filtro_municipio" := AStr(c.filtroMunicipio),
      "blacklist" := ASet(c.blacklist), "cache_dir" := AStr(c.cacheDir), "num_workers" := AInt(c.numWorkers)
    ]
  }

  /** A set becomes the list of its elements (each once); every other value is kept. */
  function Listed(v: AttrVal): AttrVal
  {
    if v.ASet? then AList(Unique(v.from)) else v
  }

  /**
   * `to_dict`: every attribute whose name does not start with "_", sets
   * turned into lists holding the same elements once each, other values
   * unchanged.
   */
  function ToDict(attrs: map<string, AttrVal>): (d: map<string, AttrVal>)
    ensures d.Keys == set k | k in attrs.Keys && !StartsWith(k, "_")
    ensures forall k :: k in d ==> !d[k].ASet?
    ensures forall k :: k in d && !attrs[k].ASet? ==> d[k] == attrs[k]
    ensures forall k :: k in d && attrs[k].ASet? ==>
              d[k].AList? && (forall x :: x in d[k].xs <==> x in attrs[k].from)
              && forall i, j :: 0 <= i < j < |d[k].xs| ==> d[k].xs[i] != d[k].xs[j]
  {
    map k | k in attrs.Keys && !StartsWith(k, "_") :: Listed(attrs[k])
  }
}
