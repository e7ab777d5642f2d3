/**
 * The collection engine's persistent caches (`CacheManager`): two sets that
 * only grow (processes known to be missing, CNPJ branches known not to
 * exist), three maps whose entries are overwritten (oversized searches,
 * per-process status, SELIC factors), hit counters, and the JSON files they
 * are loaded from and saved to.
 *
 * The lock around every method is a no-op here: the model is sequential.
 */
module CacheStore {
  import opened Common

  /** A JSON value as `json.load` returns it. */
  datatype JVal =
    | JNull
    | JBool(b: bool)
    | JInt(i: int)
    | JNum(r: real)
    | JStr(s: string)
    | JArr(items: seq<JVal>)
    | JObj(fields: map<string, JVal>)

  /** A value Python can put in a set: lists and dicts cannot. */
  predicate Hashable(v: JVal)
  {
    !v.JArr? && !v.JObj?
  }

  /** What a cache file holds: text `json.load` rejects, or a JSON value. */
  datatype StoredJson = Unparseable | Parsed(v: JVal)

  /** The cache files, by the key `_DEFAULTS` gives them (absent key: no such file). */
  type CacheFiles = map<string, StoredJson>

  const Processos404File: string := "processos_404"
  const FiliaisFile: string := "filiais_inex"
  const GigantesFile: string := "casos_gigantes"
  const ProcessosFile: string := "cache_procs"
  const SelicFile: string := "selic"
  const LogDetalhadoFile: string := "log_det"
  const LogErrosFile: string := "log_erros"

  /** How many error entries `log_erro` keeps. */
  const MaxLogEntries: nat := 2000

  /**
   * `_load_set`: the elements of a JSON list; anything else (no file, text
   * that is not JSON, a JSON value that is not a list, a list holding a list
   * or a dict, which `set()` rejects) gives the empty set.
   */
  function LoadSet(files: CacheFiles, key: string): (r: set<JVal>)
    ensures forall v :: v in r ==> Hashable(v)
    ensures key in files && files[key].Parsed? && files[key].v.JArr?
            && (forall i :: 0 <= i < |files[key].v.items| ==> Hashable(files[key].v.items[i]))
            ==> r == set i | 0 <= i < |files[key].v.items| :: files[key].v.items[i]
    ensures !(key in files && files[key].Parsed? && files[key].v.JArr?) ==> r == {}
  {
    if key in files && files[key].Parsed? && files[key].v.JArr? then
      var items := files[key].v.items;
      if forall i :: 0 <= i < |items| ==> Hashable(items[i]) then set i | 0 <= i < |items| :: items[i] else {}
    else {}
  }

  /** `_load_dict`: a JSON object as it is; anything else gives the empty dict. */
  function LoadDict(files: CacheFiles, key: string): (r: map<string, JVal>)
    ensures key in files && files[key].Parsed? && files[key].v.JObj? ==> r == files[key].v.fields
    ensures !(key in files && files[key].Parsed? && files[key].v.JObj?) ==> r == map[]
  {
    if key in files && files[key].Parsed? && files[key].v.JObj? then files[key].v.fields else map[]
  }

  /**
   * The error log after one more entry: the entry is last, and only the
   * most recent `MaxLogEntries` entries remain.
   */
  function AppendCapped(logs: seq<JVal>, entry: JVal): (r: seq<JVal>)
    ensures |r| == if |logs| + 1 > MaxLogEntries then MaxLogEntries else |logs| + 1
    ensures r[|r| - 1] == entry
    ensures forall k :: 0 <= k < |r| ==> r[k] == (logs + [entry])[|logs| + 1 - |r| + k]
  {
    var all := logs + [entry];
    if |all| > MaxLogEntries then all[|all| - MaxLogEntries..] else all
  }

  lemma AppendCappedEmpty(entry: JVal)
    ensures AppendCapped([], entry) == [entry]
  {
    assert [] + [entry] == [entry];
  }

  /** The cache files after `log_erro` of `entry`: appended to the log, or unchanged when the log is unreadable. */
  function WithError(files: CacheFiles, entry: JVal): CacheFiles
  {
    if LogErrosFile !in files then files[LogErrosFile := Parsed(JArr([entry]))]
    else if files[LogErrosFile].Parsed? && files[LogErrosFile].v.JArr? then
      files[LogErrosFile := Parsed(JArr(AppendCapped(files[LogErrosFile].v.items, entry)))]
    else files
  }

  /**
   * After `log_erro` only the error log can have changed; when it was absent
   * or a readable list it now holds a list of at most `MaxLogEntries`
   * entries ending with the new one, and otherwise it is as it was.
   */
  lemma WithErrorFacts(files: CacheFiles, entry: JVal)
    ensures var r := WithError(files, entry);
            && (forall k :: k != LogErrosFile ==> (k in r <==> k in files) && (k in files ==> r[k] == files[k]))
            && (LogErrosFile !in files || (files[LogErrosFile].Parsed? && files[LogErrosFile].v.JArr?) ==>
                  LogErrosFile in r && r[LogErrosFile].Parsed? && r[LogErrosFile].v.JArr?
                  && 0 < |r[LogErrosFile].v.items| <= MaxLogEntries
                  && r[LogErrosFile].v.items[|r[LogErrosFile].v.items| - 1] == entry)
            && (LogErrosFile in files && !(files[LogErrosFile].Parsed? && files[LogErrosFile].v.JArr?) ==> r == files)
  {
    AppendCappedEmpty(entry);
  }

  /** The hit counters `_hits`. */
  datatype Hits = Hits(p404: nat, filial: nat, proc: nat, selic: nat)

  /** What `get_stats` reports. */
  datatype CacheStats = CacheStats(processos404: nat, filiaisInexistentes: nat, casosGigantes: nat,
                                   cacheProcessos: nat, selicCache: nat, hits: Hits)

  class CacheManager {
    /** The cache directory's files. */
    var files: CacheFiles
    var processos404: set<JVal>
    var filiaisInexistentes: set<JVal>
    var casosGigantes: map<string, JVal>
    var cacheProcessos: map<string, JVal>
    var selicCache: map<string, JVal>
    var hits: Hits

    /**
     * The sets hold only what a set can hold, and the branch and process hit
     * counters are never incremented by any method.
     */
    predicate Valid()
      reads this
    {
      (forall v :: v in processos404 ==> Hashable(v))
      && (forall v :: v in filiaisInexistentes ==> Hashable(v))
      && hits.filial == 0 && hits.proc == 0
    }

    /** `__init__` followed by `_load_all`: every collection is read from its file, counters start at 0. */
    constructor (initial: CacheFiles)
      ensures Valid()
      ensures files == initial
      ensures processos404 == LoadSet(initial, Processos404File)
      ensures filiaisInexistentes == LoadSet(initial, FiliaisFile)
      ensures casosGigantes == LoadDict(initial, GigantesFile)
      ensures cacheProcessos == LoadDict(initial, ProcessosFile)
      ensures selicCache == LoadDict(initial, SelicFile)
      ensures hits == Hits(0, 0, 0, 0)
    {
      files := initial;
      processos404 := LoadSet(initial, Processos404File);
      filiaisInexistentes := LoadSet(initial, FiliaisFile);
      casosGigantes := LoadDict(initial, GigantesFile);
      cacheProcessos := LoadDict(initial, ProcessosFile);
      selicCache := LoadDict(initial, SelicFile);
      hits := Hits(0, 0, 0, 0);
    }

    /** Membership in the not-found set; the p404 counter counts exactly the hits. */
    method IsProcesso404(proc: string) returns (hit: bool)
      modifies this
      ensures hit <==> JStr(proc) in processos404
      ensures hits == if hit then old(hits).(p404 := old(hits).p404 + 1) else old(hits)
      ensures old(Valid()) ==> Valid()
      ensures files == old(files) && processos404 == old(processos404)
      ensures filiaisInexistentes == old(filiaisInexistentes) && casosGigantes == old(casosGigantes)
      ensures cacheProcessos == old(cacheProcessos) && selicCache == old(selicCache)
    {
      hit := JStr(proc) in processos404;
      if hit {
        hits := hits.(p404 := hits.p404 + 1);
      }
    }

    /** Inserts into the not-found set; nothing is ever removed from it. */
    method AddProcesso404(proc: string)
      requires Valid()
      modifies this
      ensures Valid()
      ensures processos404 == old(processos404) + {JStr(proc)}
      ensures files == old(files) && hits == old(hits)
      ensures filiaisInexistentes == old(filiaisInexistentes) && casosGigantes == old(casosGigantes)
      ensures cacheProcessos == old(cacheProcessos) && selicCache == old(selicCache)
    {
      processos404 := processos404 + {JStr(proc)};
    }

    method IsFilialInexistente(cnpj: string) returns (r: bool)
      ensures r <==> JStr(cnpj) in filiaisInexistentes
    {
      r := JStr(cnpj) in filiaisInexistentes;
    }

    /** Inserts into the nonexistent-branch set; nothing is ever removed from it. */
    method AddFilialInexistente(cnpj: string)
      requires Valid()
      modifies this
      ensures Valid()
      ensures filiaisInexistentes == old(filiaisInexistentes) + {JStr(cnpj)}
      ensures files == old(files) && hits == old(hits)
      ensures processos404 == old(processos404) && casosGigantes == old(casosGigantes)
      ensures cacheProcessos == old(cacheProcessos) && selicCache == old(selicCache)
    {
      filiaisInexistentes := filiaisInexistentes + {JStr(cnpj)};
    }

    method IsCasoGigante(doc: string) returns (r: bool)
      ensures r <==> doc in casosGigantes
    {
      r := doc in casosGigantes;
    }

    /** Sets the total for one document; every other entry is kept. */
    method AddCasoGigante(doc: string, total: int)
      requires Valid()
      modifies this
      ensures Valid()
      ensures casosGigantes == old(casosGigantes)[doc := JInt(total)]
      ensures files == old(files) && hits == old(hits)
      ensures processos404 == old(processos404) && filiaisInexistentes == old(filiaisInexistentes)
      ensures cacheProcessos == old(cacheProcessos) && selicCache == old(selicCache)
    {
      casosGigantes := casosGigantes[doc := JInt(total)];
    }

    method IsProcessoProcessado(proc: string) returns (r: bool)
      ensures r <==> proc in cacheProcessos
    {
      r := proc in cacheProcessos;
    }

    /** The stored status, or "" for a process never recorded. */
    method GetStatusProcesso(proc: string) returns (r: JVal)
      ensures proc in cacheProcessos ==> r == cacheProcessos[proc]
      ensures proc !in cacheProcessos ==> r == JStr("")
    {
      r := if proc in cacheProcessos then cacheProcessos[proc] else JStr("");
    }

    /** Sets the status of one process; every other entry is kept. */
    method AddProcesso(proc: string, status: string)
      requires Valid()
      modifies this
      ensures Valid()
      ensures cacheProcessos == old(cacheProcessos)[proc := JStr(status)]
      ensures files == old(files) && hits == old(hits)
      ensures processos404 == old(processos404) && filiaisInexistentes == old(filiaisInexistentes)
      ensures casosGigantes == old(casosGigantes) && selicCache == old(selicCache)
    {
      cacheProcessos := cacheProcessos[proc := JStr(status)];
    }

    /**
     * `separar_processados`: the numbers already recorded and the others.
     * Every element of the input lands in exactly one list, as often as it
     * occurs, and each list keeps input order.
     */
    method SepararProcessados(lista: seq<string>) returns (ja: seq<string>, falta: seq<string>)
      ensures forall p :: p in ja <==> p in lista && p in cacheProcessos
      ensures forall p :: p in falta <==> p in lista && p !in cacheProcessos
      ensures multiset(ja) + multiset(falta) == multiset(lista)
      ensures ja == Filter(lista, InMap(cacheProcessos)) && falta == Filter(lista, NotInMap(cacheProcessos))
    {
      var recorded := cacheProcessos;
      var isIn := InMap(recorded);
      var isOut := NotInMap(recorded);
      ja := Filter(lista, isIn);
      falta := Filter(lista, isOut);
      FilterPartition(lista, isIn, isOut);
      forall p ensures p in ja <==> p in lista && p in recorded {
        FilterMember(lista, isIn, p);
      }
      forall p ensures p in falta <==> p in lista && p !in recorded {
        FilterMember(lista, isOut, p);
      }
    }

    /** The stored factor, or null when absent; the selic counter counts exactly the non-null answers. */
    method GetSelic(key: string) returns (v: JVal)
      modifies this
      ensures v == if key in selicCache then selicCache[key] else JNull
      ensures hits == if v != JNull then old(hits).(selic := old(hits).selic + 1) else old(hits)
      ensures files == old(files) && processos404 == old(processos404)
      ensures filiaisInexistentes == old(filiaisInexistentes) && casosGigantes == old(casosGigantes)
      ensures cacheProcessos == old(cacheProcessos) && selicCache == old(selicCache)
    {
      v := if key in selicCache then selicCache[key] else JNull;
      if v != JNull {
        hits := hits.(selic := hits.selic + 1);
      }
    }

    /** Overwrites one factor; every other entry is kept. */
    method SetSelic(key: string, valor: real)
      requires Valid()
      modifies this
      ensures Valid()
      ensures selicCache == old(selicCache)[key := JNum(valor)]
      ensures files == old(files) && hits == old(hits)
      ensures processos404 == old(processos404) && filiaisInexistentes == old(filiaisInexistentes)
      ensures casosGigantes == old(casosGigantes) && cacheProcessos == old(cacheProcessos)
    {
      selicCache := selicCache[key := JNum(valor)];
    }

    /**
     * `log_erro`: reads the error log, appends the entry (timestamp `ts`)
     * and keeps the last `MaxLogEntries` entries. A file that is not JSON or
     * holds something other than a list makes the method fail silently and
     * leaves the file as it was.
     */
    method LogErro(processo: string, documento: string, tipo: string, detalhes: string, ts: string)
      requires Valid()
      modifies this
      ensures Valid()
      ensures files == WithError(old(files), ErrorEntry(processo, documento, tipo, detalhes, ts))
      ensures hits == old(hits) && processos404 == old(processos404) && filiaisInexistentes == old(filiaisInexistentes)
      ensures casosGigantes == old(casosGigantes) && cacheProcessos == old(cacheProcessos) && selicCache == old(selicCache)
    {
      var entry := ErrorEntry(processo, documento, tipo, detalhes, ts);
      var logs: seq<JVal> := [];
      if LogErrosFile in files {
        var stored := files[LogErrosFile];
        if !(stored.Parsed? && stored.v.JArr?) {
          return;
        }
        logs := stored.v.items;
      }
      AppendCappedEmpty(entry);
      logs := Capped(logs, entry);
      files := files[LogErrosFile := Parsed(JArr(logs))];
    }

    /** The log with `entry` appended and only the last `MaxLogEntries` entries kept. */
    static method Capped(read: seq<JVal>, entry: JVal) returns (logs: seq<JVal>)
      ensures logs == AppendCapped(read, entry)
    {
      logs := read + [entry];
      if |logs| > MaxLogEntries {
        logs := logs[|logs| - MaxLogEntries..];
      }
    }

    /**
     * `log_detalhado`: stores `info` plus a "timestamp" field under the
     * document in the detailed log object. A file that is not JSON or holds
     * something other than an object leaves the file as it was.
     */
    method LogDetalhado(documento: string, info: map<string, JVal>, ts: string)
      requires Valid()
      modifies this
      ensures Valid()
      ensures old(LogDetalhadoFile !in files) ==>
                files == old(files)[LogDetalhadoFile := Parsed(JObj(map[documento := JObj(info["timestamp" := JStr(ts)])]))]
      ensures old(LogDetalhadoFile in files && files[LogDetalhadoFile].Parsed? && files[LogDetalhadoFile].v.JObj?) ==>
                files == old(files)[LogDetalhadoFile := Parsed(JObj(old(files[LogDetalhadoFile].v.fields)[documento := JObj(info["timestamp" := JStr(ts)])]))]
      ensures old(LogDetalhadoFile in files && !(files[LogDetalhadoFile].Parsed? && files[LogDetalhadoFile].v.JObj?)) ==> files == old(files)
      ensures hits == old(hits) && processos404 == old(processos404) && filiaisInexistentes == old(filiaisInexistentes)
      ensures casosGigantes == old(casosGigantes) && cacheProcessos == old(cacheProcessos) && selicCache == old(selicCache)
    {
      var existing: map<string, JVal> := map[];
      if LogDetalhadoFile in files {
        var stored := files[LogDetalhadoFile];
        if !(stored.Parsed? && stored.v.JObj?) {
          return;
        }
        existing := stored.v.fields;
      }
      existing := existing[documento := JObj(info["timestamp" := JStr(ts)])];
      files := files[LogDetalhadoFile := Parsed(JObj(existing))];
    }

    /**
     * `save_all`: writes every collection to its file, the sets as lists in
     * whatever order iterating them yields. Loading the files again gives back
     * exactly the same collections.
     */
    method SaveAll()
      requires Valid()
      modifies this
      ensures Valid()
      ensures LoadSet(files, Processos404File) == processos404
      ensures LoadSet(files, FiliaisFile) == filiaisInexistentes
      ensures LoadDict(files, GigantesFile) == casosGigantes
      ensures LoadDict(files, ProcessosFile) == cacheProcessos
      ensures LoadDict(files, SelicFile) == selicCache
      ensures forall k :: k in old(files) && k !in SavedFiles ==> k in files && files[k] == old(files)[k]
      ensures forall k :: k in files ==> k in old(files) || k in SavedFiles
      ensures hits == old(hits) && processos404 == old(processos404) && filiaisInexistentes == old(filiaisInexistentes)
      ensures casosGigantes == old(casosGigantes) && cacheProcessos == old(cacheProcessos) && selicCache == old(selicCache)
    {
      var l404 := ListOf(processos404);
      files := files[Processos404File := Parsed(JArr(l404))];
      var lFiliais := ListOf(filiaisInexistentes);
      files := files[FiliaisFile := Parsed(JArr(lFiliais))];
      files := files[GigantesFile := Parsed(JObj(casosGigantes))];
      files := files[ProcessosFile := Parsed(JObj(cacheProcessos))];
      files := files[SelicFile := Parsed(JObj(selicCache))];
      LoadSetOfList(files, Processos404File, processos404);
      LoadSetOfList(files, FiliaisFile, filiaisInexistentes);
    }

    /** `get_stats`: the size of every collection and a copy of the hit counters. */
    method GetStats() returns (r: CacheStats)
      ensures r.processos404 == |processos404| && r.filiaisInexistentes == |filiaisInexistentes|
      ensures r.casosGigantes == |casosGigantes| && r.cacheProcessos == |cacheProcessos| && r.selicCache == |selicCache|
      ensures r.hits == hits
    {
      r := CacheStats(|processos404|, |filiaisInexistentes|, |casosGigantes|, |cacheProcessos|, |selicCache|, hits);
    }
  }

  /** The files `save_all` writes. */
  const SavedFiles: set<string> := {Processos404File, FiliaisFile, GigantesFile, ProcessosFile, SelicFile}

  /** One `log_erro` entry. */
  function ErrorEntry(processo: string, documento: string, tipo: string, detalhes: string, ts: string): JVal
  {
    JObj(map["ts" := JStr(ts), "proc" := JStr(processo), "doc" := JStr(documento), "tipo" := JStr(tipo), "det" := JStr(detalhes)])
  }

  /**
   * `list(s)`: the elements of a set, each once, in the order iterating the
   * set yields them (any order).
   */
  method ListOf(s: set<JVal>) returns (xs: seq<JVal>)
    ensures Elements(xs) == s
    ensures |xs| == |s|
  {
    xs := [];
    var rest := s;
    while rest != {}
      invariant rest !! Elements(xs)
      invariant rest + Elements(xs) == s
      invariant |xs| + |rest| == |s|
      decreases |rest|
    {
      var x :| x in rest;
      ElementsSnoc(xs, x);
      xs := xs + [x];
      rest := rest - {x};
    }
  }

  /** The set of elements of a list. */
  function Elements(xs: seq<JVal>): set<JVal>
  {
    set y | y in xs
  }

  lemma ElementsSnoc(xs: seq<JVal>, x: JVal)
    ensures Elements(xs + [x]) == Elements(xs) + {x}
  {
    assert forall y :: y in xs + [x] <==> y in xs || y == x;
  }

  /** Loading a list written from a set of hashable values gives back that set. */
  lemma LoadSetOfList(files: CacheFiles, key: string, s: set<JVal>)
    requires key in files && files[key].Parsed? && files[key].v.JArr? && Elements(files[key].v.items) == s
    requires forall v :: v in s ==> Hashable(v)
    ensures LoadSet(files, key) == s
  {
    var items := files[key].v.items;
    forall i | 0 <= i < |items| ensures Hashable(items[i]) {
      assert items[i] in Elements(items);
    }
    assert (set i | 0 <= i < |items| :: items[i]) == Elements(items);
  }

  /** The membership test of a map's keys, as a function value. */
  function InMap(m: map<string, JVal>): string -> bool
  {
    p => p in m
  }

  function NotInMap(m: map<string, JVal>): string -> bool
  {
    p => p !in m
  }
}
