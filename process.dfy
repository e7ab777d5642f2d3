/**
 * The JSON shapes the PDPJ process API returns, reduced to the fields the
 * collection engine reads, and the files the engine keeps on disk (page
 * checkpoints and per-process detail files).
 *
 * A JSON string field that is absent, null or "" is represented by "". For
 * absent and "" the code agrees, reading such fields with a "" default or
 * testing them for truthiness. An explicit JSON null is different: `.get`
 * then returns None, and calling `.upper()`, `.strip()` or `re.sub` on a
 * party's null `polo`, `nome`, `tipoParte` or document `numero` raises. The
 * model has no such value, so those raising paths are not part of it.
 */
module Process {
  import opened Common

  /** One entry of a tramitação's `partes` list. `docs` are the `numero` fields of `documentosPrincipais`. */
  datatype Party = Party(tipoParte: string, polo: string, nome: string, docs: seq<string>)

  /**
   * One entry of a process's `tramitacoes` list: the `codigo` of each `classe`
   * entry, the parties, the `descricao` of each `movimentos` entry, and the
   * `descricao` of `ultimoMovimento` when that field is an object.
   */
  datatype Tram = Tram(classes: seq<int>, partes: seq<Party>, movimentos: seq<string>, ultimoMovimento: Option<string>)

  /** A process record: `numeroProcesso`, the search cursor `sort`, and `tramitacoes`. */
  datatype Item = Item(numero: string, sort: seq<string>, trams: seq<Tram>)

  /** What `data.get(...)` sees in a search page: `totalRegistros`, `content`, `searchAfter`. */
  datatype JsonPage = JsonPage(totalRegistros: Option<int>, content: seq<Item>, searchAfter: seq<string>)

  /**
   * A response body or a file's contents as `json.load`/`resp.json()` read it:
   * a search page object, a process record object, the empty object `{}`,
   * JSON `null` (which `json.load` returns as None), some other JSON value
   * (a list, a number; `truthy` says whether Python treats it as true), or
   * text that is not JSON at all.
   */
  datatype Body =
    | PageJson(page: JsonPage)
    | RecordJson(item: Item)
    | EmptyJson
    | NullJson
    | OtherJson(truthy: bool)
    | NotJson

  /** Python truthiness of a parsed body (`if data:`). */
  predicate Truthy(b: Body)
    requires !b.NotJson?
  {
    match b
    case PageJson(_) => true
    case RecordJson(_) => true
    case EmptyJson => false
    case NullJson => false
    case OtherJson(t) => t
  }

  /**
   * The page the pager's `data.get(...)` calls see. A JSON object without the
   * page keys reads as total missing, no content and no cursor; a value that
   * is not an object (null included) makes `data.get` raise, which is None here.
   */
  function AsPage(b: Body): (r: Option<JsonPage>)
    ensures r.Some? <==> (b.PageJson? || b.RecordJson? || b.EmptyJson?)
    ensures b.PageJson? ==> r == Some(b.page)
    ensures (b.RecordJson? || b.EmptyJson?) ==> r == Some(JsonPage(None, [], []))
  {
    match b
    case PageJson(p) => Some(p)
    case RecordJson(_) => Some(JsonPage(None, [], []))
    case EmptyJson => Some(JsonPage(None, [], []))
    case _ => None
  }

  /** Where a file lives: `page_<n>.json` in a checkpoint directory, or a named file in a directory. */
  datatype FileKey = PageFile(dir: string, n: int) | NamedFile(dir: string, name: string)

  /** The base name of a file (`os.path.basename`). */
  function FileName(k: FileKey): string
  {
    match k
    case PageFile(_, n) => "page_" + IntToString(n) + ".json"
    case NamedFile(_, name) => name
  }

  /** The directory holding a file. */
  function FileDir(k: FileKey): string
  {
    k.dir
  }

  /** `os.path.join(a, b)`: "/" between the parts unless `a` is empty or already ends with "/". */
  function PathJoin(a: string, b: string): (r: string)
    ensures EndsWith(r, b)
  {
    if a == "" then b
    else if a[|a| - 1] == '/' then a + b
    else a + "/" + b
  }

  /** The directory tree the engine reads and writes, as a map from file to contents. */
  class Disk {
    var files: map<FileKey, Body>

    constructor (initial: map<FileKey, Body>)
      ensures files == initial
    {
      files := initial;
    }

    /** `os.path.isfile`. */
    function IsFile(k: FileKey): bool
      reads this
    {
      k in files
    }

    /** Reads and parses a file: None when it is missing or not JSON. */
    method Load(k: FileKey) returns (r: Option<Body>)
      ensures r.None? <==> (k !in files || files[k].NotJson?)
      ensures r.Some? ==> r.value == files[k]
    {
      if k in files && !files[k].NotJson? {
        r := Some(files[k]);
      } else {
        r := None;
      }
    }

    /** Writes a file; every other file is left as it was. */
    method Save(k: FileKey, b: Body)
      modifies this
      ensures files == old(files)[k := b]
    {
      files := files[k := b];
    }
  }
}
