/**
 * The configuration routes: `GET /config` (the configuration as a
 * dictionary, with the tokens replaced by their count and masked forms) and
 * `POST /config` (the requested fields turned into `.env` assignments, the
 * file's lines rewritten in place and the missing keys appended).
 *
 * The `.env` file is its list of lines, as `readlines` gives them; the
 * lines read back through the same parser the settings loader uses
 * (`Settings.ParseLine`, `Settings.EnvOf`).
 */
module WebConfig {
  import opened Common
  import opened Settings

  // ---------------------------------------------------------------------
  // Token masking
  // ---------------------------------------------------------------------

  /** A token as the settings page shows it. */
  function Mask(t: string): (r: string)
    ensures |t| > 30 ==> |r| == 23 && r[..12] == t[..12] && r[12..15] == "..." && r[15..] == t[|t| - 8..]
    ensures 10 < |t| <= 30 ==> |r| == 13 && r[..6] == t[..6] && r[6..9] == "..." && r[9..] == t[|t| - 4..]
    ensures |t| <= 10 ==> r == "***"
  {
    if |t| > 30 then t[..12] + "..." + t[|t| - 8..]
    else if |t| > 10 then t[..6] + "..." + t[|t| - 4..]
    else "***"
  }

  /**
   * The mask depends only on the characters it shows: two tokens of the
   * same length that agree on their first 12 and last 8 characters (first
   * 6 and last 4 for shorter tokens; nothing for tokens of 10 or fewer)
   * are shown alike, so whatever lies between is never revealed.
   */
  lemma MaskHidesMiddle(t: string, u: string)
    requires |t| == |u|
    requires |t| > 30 ==> t[..12] == u[..12] && t[|t| - 8..] == u[|u| - 8..]
    requires 10 < |t| <= 30 ==> t[..6] == u[..6] && t[|t| - 4..] == u[|u| - 4..]
    ensures Mask(t) == Mask(u)
  {
  }

  /** A token longer than 13 characters never appears unmasked. */
  lemma MaskNeverShowsToken(t: string)
    requires |t| > 13
    ensures Mask(t) != t
  {
  }

  /**
   * `get_config`'s dictionary: the raw token list removed, its length
   * under "tokens_count" and the masked tokens, in order, under
   * "tokens_masked"; every other entry kept.
   */
  function TokenView(d: map<string, AttrVal>): (r: map<string, AttrVal>)
    ensures "tokens" !in r
    ensures var raw := if "tokens" in d && d["tokens"].AList? then d["tokens"].xs else [];
            "tokens_count" in r && "tokens_masked" in r
            && r["tokens_count"] == AInt(|raw|) && r["tokens_masked"].AList?
            && |r["tokens_masked"].xs| == |raw|
            && forall i :: 0 <= i < |raw| ==> r["tokens_masked"].xs[i] == Mask(raw[i])
    ensures forall k :: k != "tokens" && k != "tokens_count" && k != "tokens_masked" ==>
              (k in r <==> k in d) && (k in r ==> r[k] == d[k])
  {
    var raw := if "tokens" in d && d["tokens"].AList? then d["tokens"].xs else [];
    var masked := seq(|raw|, i requires 0 <= i < |raw| => Mask(raw[i]));
    (d["tokens_count" := AInt(|raw|)]["tokens_masked" := AList(masked)]) - {"tokens"}
  }

  // ---------------------------------------------------------------------
  // The requested updates
  // ---------------------------------------------------------------------

  /** The settings page's field names and the `.env` keys they write, in order. */
  const FieldMap: seq<(string, string)> := [
    ("tokens", "PDPJ_TOKENS"), ("base_url", "PDPJ_BASE_URL"), ("tribunal", "PDPJ_TRIBUNAL"),
    ("id_classe", "PDPJ_ID_CLASSE"), ("input_file", "INPUT_FILE"), ("output_dir", "OUTPUT_DIR"),
    ("max_por_pagina", "MAX_POR_PAGINA"), ("max_paginas_por_caso", "MAX_PAGINAS_POR_CASO"),
    ("max_processos_totais", "MAX_PROCESSOS_TOTAIS_POR_CASO"), ("max_processos_per_doc", "MAX_PROCESSOS_PER_DOC"),
    ("max_processos_per_root", "MAX_PROCESSOS_PER_CNPJ_ROOT"), ("max_filiais", "MAX_FILIAIS"),
    ("download_detalhes", "DOWNLOAD_DETALHES"), ("enable_busca_documento", "ENABLE_BUSCA_DOCUMENTO"),
    ("enable_busca_nome", "ENABLE_BUSCA_NOME"), ("enable_busca_filial", "ENABLE_BUSCA_FILIAL"),
    ("workers_per_token", "WORKERS_PER_TOKEN"), ("debug", "DEBUG"),
    ("dashboard_enabled", "DASHBOARD_ENABLED"), ("filtro_municipio", "FILTRO_MUNICIPIO")
  ]

  /** A field value sent by the settings page. */
  datatype FieldVal = VBool(b: bool) | VInt(i: int) | VStr(s: string) | VList(items: seq<string>)

  /** How a value is written: booleans in lower case, lists comma-joined, the rest through `str`. */
  function EnvText(v: FieldVal): string
  {
    match v
    case VBool(b) => if b then "true" else "false"
    case VInt(i) => IntToString(i)
    case VStr(s) => s
    case VList(items) => Join(items, ",")
  }

  /**
   * The updates a request makes, in field order: one `(key, text)` per
   * field that is present (not None) in the request and known to the map.
   */
  function Updates(req: map<string, FieldVal>, fields: seq<(string, string)>): (u: seq<(string, string)>)
    ensures |u| <= |fields|
  {
    if |fields| == 0 then []
    else
      var f := fields[|fields| - 1];
      Updates(req, fields[..|fields| - 1]) + (if f.0 in req then [(f.1, EnvText(req[f.0]))] else [])
  }

  /** Every update comes from a requested field, with that field's text. */
  lemma {:induction false} UpdatesSource(req: map<string, FieldVal>, fields: seq<(string, string)>, i: nat)
    requires i < |Updates(req, fields)|
    ensures exists j :: 0 <= j < |fields| && fields[j].0 in req
                        && Updates(req, fields)[i] == (fields[j].1, EnvText(req[fields[j].0]))
  {
    var init := fields[..|fields| - 1];
    var f := fields[|fields| - 1];
    if i < |Updates(req, init)| {
      UpdatesSource(req, init, i);
      var j :| 0 <= j < |init| && init[j].0 in req && Updates(req, init)[i] == (init[j].1, EnvText(req[init[j].0]));
      assert fields[j] == init[j];
    } else {
      assert Updates(req, fields)[i] == (f.1, EnvText(req[f.0]));
    }
  }

  /** Every requested field of the map gives an update. */
  lemma {:induction false} UpdatesComplete(req: map<string, FieldVal>, fields: seq<(string, string)>, j: nat)
    requires j < |fields| && fields[j].0 in req
    ensures (fields[j].1, EnvText(req[fields[j].0])) in Updates(req, fields)
  {
    var init := fields[..|fields| - 1];
    if j < |init| {
      assert init[j] == fields[j];
      UpdatesComplete(req, init, j);
    }
  }

  /** The loop of `update_config` that builds `updates`, over the field map it is given. */
  method PrepararUpdates(req: map<string, FieldVal>, fields: seq<(string, string)>) returns (updates: seq<(string, string)>)
    ensures updates == Updates(req, fields)
  {
    updates := [];
    for i := 0 to |fields|
      invariant updates == Updates(req, fields[..i])
    {
      assert fields[..i + 1][..i] == fields[..i];
      var f := fields[i];
      if f.0 in req {
        updates := updates + [(f.1, EnvText(req[f.0]))];
      }
    }
    assert fields[..|fields|] == fields;
  }

  // ---------------------------------------------------------------------
  // Rewriting the file
  // ---------------------------------------------------------------------

  /** `updates.get(key)` on a dict whose keys come in this order. */
  function ValueOf(upd: seq<(string, string)>, k: string): (r: Option<string>)
    ensures r.Some? <==> exists i :: 0 <= i < |upd| && upd[i].0 == k
    ensures r.Some? ==> exists i :: 0 <= i < |upd| && upd[i] == (k, r.value)
  {
    if |upd| == 0 then None
    else if upd[0].0 == k then Some(upd[0].1)
    else
      var r := ValueOf(upd[1..], k);
      assert r.Some? ==> exists i :: 0 <= i < |upd[1..]| && upd[1..][i] == (k, r.value);
      r
  }

  predicate DistinctKeys(upd: seq<(string, string)>)
  {
    forall i, j :: 0 <= i < j < |upd| ==> upd[i].0 != upd[j].0
  }

  lemma {:induction false} ValueOfDistinct(upd: seq<(string, string)>, i: nat)
    requires DistinctKeys(upd) && i < |upd|
    ensures ValueOf(upd, upd[i].0) == Some(upd[i].1)
  {
    if i > 0 {
      ValueOfDistinct(upd[1..], i - 1);
    }
  }

  /** A line as `update_config` writes it. */
  function EnvLineText(k: string, v: string): string
  {
    k + "=" + v + "\n"
  }

  /** The key a line sets and its new value, when the line sets a setting being updated. */
  function Matched(line: string, upd: seq<(string, string)>): Option<(string, string)>
  {
    var p := ParseLine(line);
    if p.Assign? && ValueOf(upd, p.key).Some? then Some((p.key, ValueOf(upd, p.key).value)) else None
  }

  /** One line after the rewrite: a setting being updated is replaced, anything else kept. */
  function RewriteLine(line: string, m: Option<(string, string)>): string
  {
    if m.Some? then EnvLineText(m.value.0, m.value.1) else line
  }

  /** The matches of the lines, in order. */
  function MatchedKeys(lines: seq<string>, upd: seq<(string, string)>): (ks: seq<Option<(string, string)>>)
    ensures |ks| == |lines| && forall j :: 0 <= j < |lines| ==> ks[j] == Matched(lines[j], upd)
  {
    seq(|lines|, j requires 0 <= j < |lines| => Matched(lines[j], upd))
  }

  /** The keys of the matches present in a sequence of optional matches. */
  function KeySet(ks: seq<Option<(string, string)>>): set<string>
  {
    if |ks| == 0 then {}
    else KeySet(ks[..|ks| - 1]) + (if ks[|ks| - 1].Some? then {ks[|ks| - 1].value.0} else {})
  }

  lemma {:induction false} KeySetMember(ks: seq<Option<(string, string)>>, k: string)
    ensures k in KeySet(ks) <==> exists j :: 0 <= j < |ks| && ks[j].Some? && ks[j].value.0 == k
  {
    if |ks| > 0 {
      var init := ks[..|ks| - 1];
      KeySetMember(init, k);
      if exists j :: 0 <= j < |ks| && ks[j].Some? && ks[j].value.0 == k {
        var j :| 0 <= j < |ks| && ks[j].Some? && ks[j].value.0 == k;
        if j < |init| {
          assert init[j] == ks[j];
        }
      }
      if exists j :: 0 <= j < |init| && init[j].Some? && init[j].value.0 == k {
        var j :| 0 <= j < |init| && init[j].Some? && init[j].value.0 == k;
        assert ks[j] == init[j];
      }
    }
  }

  /** `written_keys`: the updated keys some line of the file already set. */
  function Written(lines: seq<string>, upd: seq<(string, string)>): set<string>
  {
    KeySet(MatchedKeys(lines, upd))
  }

  lemma WrittenMember(lines: seq<string>, upd: seq<(string, string)>, k: string)
    ensures k in Written(lines, upd) <==>
              ValueOf(upd, k).Some? && exists j :: 0 <= j < |lines| && ParseLine(lines[j]).Assign? && ParseLine(lines[j]).key == k
  {
    if k in Written(lines, upd) {
      var j := WrittenSource(lines, upd, k);
    }
    if ValueOf(upd, k).Some? && exists j :: 0 <= j < |lines| && ParseLine(lines[j]).Assign? && ParseLine(lines[j]).key == k {
      var j :| 0 <= j < |lines| && ParseLine(lines[j]).Assign? && ParseLine(lines[j]).key == k;
      WrittenFrom(lines, upd, k, j);
    }
  }

  lemma WrittenSource(lines: seq<string>, upd: seq<(string, string)>, k: string) returns (j: nat)
    requires k in Written(lines, upd)
    ensures j < |lines| && ParseLine(lines[j]).Assign? && ParseLine(lines[j]).key == k && ValueOf(upd, k).Some?
  {
    var ks := MatchedKeys(lines, upd);
    KeySetMember(ks, k);
    j :| 0 <= j < |ks| && ks[j].Some? && ks[j].value.0 == k;
    assert ks[j] == Matched(lines[j], upd);
  }

  lemma WrittenFrom(lines: seq<string>, upd: seq<(string, string)>, k: string, j: nat)
    requires j < |lines| && ParseLine(lines[j]).Assign? && ParseLine(lines[j]).key == k && ValueOf(upd, k).Some?
    ensures k in Written(lines, upd)
  {
    var ks := MatchedKeys(lines, upd);
    assert ks[j] == Matched(lines[j], upd);
    KeySetMember(ks, k);
  }

  /** The updates no line set, as lines, in order. */
  function Appended(upd: seq<(string, string)>, written: set<string>): (r: seq<string>)
    ensures |r| <= |upd|
  {
    if |upd| == 0 then []
    else
      var e := upd[|upd| - 1];
      Appended(upd[..|upd| - 1], written) + (if e.0 !in written then [EnvLineText(e.0, e.1)] else [])
  }

  lemma {:induction false} AppendedSource(upd: seq<(string, string)>, written: set<string>, i: nat)
    requires i < |Appended(upd, written)|
    ensures exists m :: 0 <= m < |upd| && upd[m].0 !in written && Appended(upd, written)[i] == EnvLineText(upd[m].0, upd[m].1)
  {
    var init := upd[..|upd| - 1];
    if i < |Appended(init, written)| {
      AppendedSource(init, written, i);
      var m :| 0 <= m < |init| && init[m].0 !in written && Appended(init, written)[i] == EnvLineText(init[m].0, init[m].1);
      assert upd[m] == init[m];
    }
  }

  lemma {:induction false} AppendedComplete(upd: seq<(string, string)>, written: set<string>, m: nat)
    requires m < |upd| && upd[m].0 !in written
    ensures EnvLineText(upd[m].0, upd[m].1) in Appended(upd, written)
  {
    var init := upd[..|upd| - 1];
    if m < |init| {
      assert init[m] == upd[m];
      AppendedComplete(init, written, m);
    }
  }

  /** The lines rewritten one by one, each with its match. */
  function RewriteAll(lines: seq<string>, ks: seq<Option<(string, string)>>): (r: seq<string>)
    requires |ks| == |lines|
    ensures |r| == |lines|
  {
    if |lines| == 0 then []
    else RewriteAll(lines[..|lines| - 1], ks[..|ks| - 1]) + [RewriteLine(lines[|lines| - 1], ks[|ks| - 1])]
  }

  lemma {:induction false} RewriteAllAt(lines: seq<string>, ks: seq<Option<(string, string)>>, i: nat)
    requires |ks| == |lines| && i < |lines|
    ensures RewriteAll(lines, ks)[i] == RewriteLine(lines[i], ks[i])
  {
    if i < |lines| - 1 {
      RewriteAllAt(lines[..|lines| - 1], ks[..|ks| - 1], i);
    }
  }

  /** The file after `update_config`: every line rewritten, then the keys it did not hold. */
  function Rewritten(lines: seq<string>, upd: seq<(string, string)>): (r: seq<string>)
  {
    RewriteAll(lines, MatchedKeys(lines, upd)) + Appended(upd, Written(lines, upd))
  }

  /** Each line of the file is rewritten in place; the missing keys follow. */
  lemma RewrittenShape(lines: seq<string>, upd: seq<(string, string)>, i: nat)
    ensures |Rewritten(lines, upd)| == |lines| + |Appended(upd, Written(lines, upd))|
    ensures Rewritten(lines, upd)[|lines|..] == Appended(upd, Written(lines, upd))
    ensures i < |lines| ==> Rewritten(lines, upd)[i] == RewriteLine(lines[i], Matched(lines[i], upd))
  {
    if i < |lines| {
      RewriteAllAt(lines, MatchedKeys(lines, upd), i);
    }
  }

  /** The two loops of `update_config` that build `new_lines`. */
  method Reescrever(lines: seq<string>, upd: seq<(string, string)>) returns (newLines: seq<string>)
    ensures newLines == Rewritten(lines, upd)
  {
    var ks := MatchedKeys(lines, upd);
    var kept, written := ReescreverLinhas(lines, ks);
    var tail := Acrescentar(upd, written);
    newLines := kept + tail;
  }

  /** The first loop: each line rewritten with its match, and the keys matched on the way. */
  method ReescreverLinhas(lines: seq<string>, ks: seq<Option<(string, string)>>) returns (kept: seq<string>, written: set<string>)
    requires |ks| == |lines|
    ensures kept == RewriteAll(lines, ks)
    ensures written == KeySet(ks)
  {
    written := {};
    kept := [];
    for i := 0 to |lines|
      invariant kept == RewriteAll(lines[..i], ks[..i])
      invariant written == KeySet(ks[..i])
    {
      assert ks[..i + 1][..i] == ks[..i];
      assert lines[..i + 1][..i] == lines[..i];
      if ks[i].Some? {
        kept := kept + [EnvLineText(ks[i].value.0, ks[i].value.1)];
        written := written + {ks[i].value.0};
      } else {
        kept := kept + [lines[i]];
      }
    }
    assert ks[..|lines|] == ks;
    assert lines[..|lines|] == lines;
  }

  /** The second loop: the updated keys no line held, in order. */
  method Acrescentar(upd: seq<(string, string)>, written: set<string>) returns (tail: seq<string>)
    ensures tail == Appended(upd, written)
  {
    tail := [];
    for m := 0 to |upd|
      invariant tail == Appended(upd[..m], written)
    {
      assert upd[..m + 1][..m] == upd[..m];
      if upd[m].0 !in written {
        tail := tail + [EnvLineText(upd[m].0, upd[m].1)];
      }
    }
    assert upd[..|upd|] == upd;
  }

  /** What `POST /config` answers, and the file it writes (none when nothing changes). */
  datatype UpdateReply = UpdateReply(written: Option<seq<string>>, updated: seq<string>)

  /** The keys of the updates, in order. */
  function UpdatedKeys(upd: seq<(string, string)>): (r: seq<string>)
    ensures |r| == |upd| && forall i :: 0 <= i < |upd| ==> r[i] == upd[i].0
  {
    seq(|upd|, i requires 0 <= i < |upd| => upd[i].0)
  }

  /**
   * `update_config`: with no updates nothing is written and no key is
   * reported; otherwise the rewritten file is written and every updated key
   * is reported, in field order. A missing file counts as no lines.
   */
  method UpdateConfig(file: Option<seq<string>>, req: map<string, FieldVal>) returns (reply: UpdateReply)
    ensures Updates(req, FieldMap) == [] ==> reply == UpdateReply(None, [])
    ensures Updates(req, FieldMap) != [] ==>
              reply.written == Some(Rewritten(if file.Some? then file.value else [], Updates(req, FieldMap)))
              && reply.updated == UpdatedKeys(Updates(req, FieldMap))
  {
    var lines := if file.Some? then file.value else [];
    var updates := PrepararUpdates(req, FieldMap);
    if updates == [] {
      return UpdateReply(None, []);
    }
    var newLines := Reescrever(lines, updates);
    reply := UpdateReply(Some(newLines), UpdatedKeys(updates));
  }

  // ---------------------------------------------------------------------
  // Reading the rewritten file back
  // ---------------------------------------------------------------------

  /** A key the settings parser reads back as written. */
  predicate PlainKey(k: string)
  {
    k != "" && k[0] != '#' && NoSpace(k) && '=' !in k
  }

  /**
   * Updates whose keys are distinct and plain and whose values are stripped
   * and hold no line break (inner spaces are allowed).
   */
  predicate Readable(upd: seq<(string, string)>)
  {
    DistinctKeys(upd) && forall i :: 0 <= i < |upd| ==> PlainKey(upd[i].0) && LineValue(upd[i].1)
  }

  /** When every line setting `k` sets it to `v`, and one does, the file sets `k` to `v`. */
  lemma {:induction false} UniformValue(lines: seq<string>, k: string, v: string, j: nat)
    requires j < |lines| && ParseLine(lines[j]) == Assign(k, v)
    requires forall i :: 0 <= i < |lines| && ParseLine(lines[i]).Assign? && ParseLine(lines[i]).key == k ==>
               ParseLine(lines[i]).value == v
    ensures k in EnvOf(lines) && EnvOf(lines)[k] == v
    decreases |lines| - j
  {
    if exists i :: j < i < |lines| && ParseLine(lines[i]).Assign? && ParseLine(lines[i]).key == k {
      var i :| j < i < |lines| && ParseLine(lines[i]).Assign? && ParseLine(lines[i]).key == k;
      UniformValue(lines, k, v, i);
    } else {
      EnvOfLast(lines, k, j);
    }
  }

  /** Every line of the rewritten file that sets an updated key sets it to the new value. */
  lemma RewrittenLineSays(lines: seq<string>, upd: seq<(string, string)>, m: nat, i: nat)
    requires Readable(upd) && m < |upd|
    requires i < |Rewritten(lines, upd)|
    requires ParseLine(Rewritten(lines, upd)[i]).Assign? && ParseLine(Rewritten(lines, upd)[i]).key == upd[m].0
    ensures ParseLine(Rewritten(lines, upd)[i]).value == upd[m].1
  {
    RewrittenShape(lines, upd, i);
    var r := Rewritten(lines, upd)[i];
    ValueOfDistinct(upd, m);
    if i < |lines| {
      RewrittenLineIs(lines[i], upd, r);
    } else {
      var q := AppendedLine(lines, upd, i);
      ParseWrittenLine(upd[q].0, upd[q].1);
    }
  }

  /** What a rewritten line of the file sets, when it sets an updated key. */
  lemma RewrittenLineIs(line: string, upd: seq<(string, string)>, r: string)
    requires Readable(upd) && r == RewriteLine(line, Matched(line, upd))
    requires ParseLine(r).Assign? && ValueOf(upd, ParseLine(r).key).Some?
    ensures ParseLine(r).value == ValueOf(upd, ParseLine(r).key).value
  {
    var p := ParseLine(line);
    if p.Assign? && ValueOf(upd, p.key).Some? {
      var q :| 0 <= q < |upd| && upd[q] == (p.key, ValueOf(upd, p.key).value);
      ParseWrittenLine(p.key, ValueOf(upd, p.key).value);
    }
  }

  /** An appended line of the rewritten file is the line of some update. */
  lemma AppendedLine(lines: seq<string>, upd: seq<(string, string)>, i: nat) returns (q: nat)
    requires |lines| <= i < |Rewritten(lines, upd)|
    ensures q < |upd| && Rewritten(lines, upd)[i] == EnvLineText(upd[q].0, upd[q].1)
  {
    var written := Written(lines, upd);
    var tail := Appended(upd, written);
    assert Rewritten(lines, upd)[i] == tail[i - |lines|] by {
      RewrittenShape(lines, upd, i);
      assert Rewritten(lines, upd)[i] == Rewritten(lines, upd)[|lines|..][i - |lines|];
    }
    AppendedSource(upd, written, i - |lines|);
    q :| 0 <= q < |upd| && upd[q].0 !in written && tail[i - |lines|] == EnvLineText(upd[q].0, upd[q].1);
  }

  /** Some line of the rewritten file sets an updated key to its new value. */
  lemma RewrittenHasLine(lines: seq<string>, upd: seq<(string, string)>, m: nat) returns (j: nat)
    requires Readable(upd) && m < |upd|
    ensures j < |Rewritten(lines, upd)| && ParseLine(Rewritten(lines, upd)[j]) == Assign(upd[m].0, upd[m].1)
  {
    var (k, v) := upd[m];
    ParseWrittenLine(k, v);
    WrittenMember(lines, upd, k);
    if k in Written(lines, upd) {
      j :| 0 <= j < |lines| && ParseLine(lines[j]).Assign? && ParseLine(lines[j]).key == k;
      ReplacedInPlace(lines, upd, m, j);
    } else {
      j := AppendedAtEnd(lines, upd, m);
    }
  }

  /** A line that set an updated key now holds the key's new line. */
  lemma ReplacedInPlace(lines: seq<string>, upd: seq<(string, string)>, m: nat, j: nat)
    requires Readable(upd) && m < |upd| && j < |lines|
    requires ParseLine(lines[j]).Assign? && ParseLine(lines[j]).key == upd[m].0
    ensures Rewritten(lines, upd)[j] == EnvLineText(upd[m].0, upd[m].1)
  {
    ValueOfDistinct(upd, m);
    RewrittenShape(lines, upd, j);
  }

  /** An updated key no line set is among the appended lines. */
  lemma AppendedAtEnd(lines: seq<string>, upd: seq<(string, string)>, m: nat) returns (j: nat)
    requires m < |upd| && upd[m].0 !in Written(lines, upd)
    ensures j < |Rewritten(lines, upd)| && Rewritten(lines, upd)[j] == EnvLineText(upd[m].0, upd[m].1)
  {
    var a := Appended(upd, Written(lines, upd));
    AppendedComplete(upd, Written(lines, upd), m);
    var t :| 0 <= t < |a| && a[t] == EnvLineText(upd[m].0, upd[m].1);
    RewrittenShape(lines, upd, 0);
    j := |lines| + t;
    assert Rewritten(lines, upd)[j] == Rewritten(lines, upd)[|lines|..][t];
  }

  /** In the rewritten lines, every updated key is set to its new value. */
  lemma UpdatedKeysInLines(lines: seq<string>, upd: seq<(string, string)>, m: nat)
    requires Readable(upd) && m < |upd|
    ensures upd[m].0 in EnvOf(Rewritten(lines, upd)) && EnvOf(Rewritten(lines, upd))[upd[m].0] == upd[m].1
  {
    var out := Rewritten(lines, upd);
    var j := RewrittenHasLine(lines, upd, m);
    forall i | 0 <= i < |out| && ParseLine(out[i]).Assign? && ParseLine(out[i]).key == upd[m].0
      ensures ParseLine(out[i]).value == upd[m].1
    {
      RewrittenLineSays(lines, upd, m, i);
    }
    UniformValue(out, upd[m].0, upd[m].1, j);
  }

  /** Whether a parsed line sets `k`. */
  predicate Sets(p: EnvLine, k: string)
  {
    p.Assign? && p.key == k
  }

  /** Two runs of lines that set `k` at the same places, to the same values, agree on `k`. */
  lemma {:induction false} AssignedAgree(ps: seq<EnvLine>, qs: seq<EnvLine>, k: string)
    requires |ps| == |qs|
    requires forall i :: 0 <= i < |ps| ==> (Sets(ps[i], k) <==> Sets(qs[i], k))
    requires forall i :: 0 <= i < |ps| && Sets(ps[i], k) && Sets(qs[i], k) ==> ps[i].value == qs[i].value
    ensures (k in Assigned(ps) <==> k in Assigned(qs))
    ensures k in Assigned(ps) ==> Assigned(ps)[k] == Assigned(qs)[k]
  {
    if |ps| > 0 {
      AssignedAgree(ps[..|ps| - 1], qs[..|qs| - 1], k);
    }
  }

  /** Lines that never set `k` leave it as it was. */
  lemma {:induction false} AssignedIgnores(ps: seq<EnvLine>, extra: seq<EnvLine>, k: string)
    requires forall i :: 0 <= i < |extra| ==> !Sets(extra[i], k)
    ensures (k in Assigned(ps + extra) <==> k in Assigned(ps))
    ensures k in Assigned(ps) ==> Assigned(ps + extra)[k] == Assigned(ps)[k]
  {
    if |extra| > 0 {
      var init := extra[..|extra| - 1];
      assert (ps + extra)[..|ps + extra| - 1] == ps + init;
      AssignedIgnores(ps, init, k);
    } else {
      assert ps + extra == ps;
    }
  }

  /** A line of the file that sets a key not being updated is kept as it was. */
  lemma RewrittenLineKeeps(lines: seq<string>, upd: seq<(string, string)>, k: string, i: nat)
    requires Readable(upd) && ValueOf(upd, k).None? && i < |lines|
    ensures var p := ParseLine(lines[i]);
            var q := ParseLine(Rewritten(lines, upd)[i]);
            (Sets(p, k) <==> Sets(q, k)) && (Sets(p, k) ==> p.value == q.value)
  {
    RewrittenShape(lines, upd, i);
    var p := ParseLine(lines[i]);
    if p.Assign? && ValueOf(upd, p.key).Some? {
      var q :| 0 <= q < |upd| && upd[q] == (p.key, ValueOf(upd, p.key).value);
      ParseWrittenLine(p.key, ValueOf(upd, p.key).value);
    }
  }

  /** No appended line sets a key that is not being updated. */
  lemma AppendedSilent(upd: seq<(string, string)>, written: set<string>, k: string, i: nat)
    requires Readable(upd) && ValueOf(upd, k).None? && i < |Appended(upd, written)|
    ensures !Sets(ParseLine(Appended(upd, written)[i]), k)
  {
    AppendedSource(upd, written, i);
    var q :| 0 <= q < |upd| && upd[q].0 !in written && Appended(upd, written)[i] == EnvLineText(upd[q].0, upd[q].1);
    ParseWrittenLine(upd[q].0, upd[q].1);
  }

  /** The rewritten lines of the file set a key not being updated as the file did. */
  lemma HeadReadBack(lines: seq<string>, upd: seq<(string, string)>, k: string)
    requires Readable(upd) && ValueOf(upd, k).None?
    requires |lines| <= |Rewritten(lines, upd)|
    ensures var ps := Parsed(lines);
            var hs := Parsed(Rewritten(lines, upd)[..|lines|]);
            (k in Assigned(ps) <==> k in Assigned(hs)) && (k in Assigned(ps) ==> Assigned(ps)[k] == Assigned(hs)[k])
  {
    var ps := Parsed(lines);
    var hs := Parsed(Rewritten(lines, upd)[..|lines|]);
    forall i | 0 <= i < |ps|
      ensures (Sets(ps[i], k) <==> Sets(hs[i], k)) && (Sets(ps[i], k) ==> ps[i].value == hs[i].value)
    {
      RewrittenLineKeeps(lines, upd, k, i);
    }
    AssignedAgree(ps, hs, k);
  }

  /** In the rewritten lines, a key that was not updated is set exactly as before. */
  lemma OtherKeysInLines(lines: seq<string>, upd: seq<(string, string)>, k: string)
    requires Readable(upd) && ValueOf(upd, k).None?
    ensures k in EnvOf(Rewritten(lines, upd)) <==> k in EnvOf(lines)
    ensures k in EnvOf(lines) ==> EnvOf(Rewritten(lines, upd))[k] == EnvOf(lines)[k]
  {
    var out := Rewritten(lines, upd);
    RewrittenShape(lines, upd, 0);
    var head := out[..|lines|];
    var tail := out[|lines|..];
    HeadReadBack(lines, upd, k);
    var ts := Parsed(tail);
    forall i | 0 <= i < |ts|
      ensures !Sets(ts[i], k)
    {
      AppendedSilent(upd, Written(lines, upd), k, i);
    }
    AssignedIgnores(Parsed(head), ts, k);
    assert out == head + tail;
    ParsedAppend(head, tail);
  }

  lemma {:induction false} ParsedAppend(a: seq<string>, b: seq<string>)
    ensures Parsed(a + b) == Parsed(a) + Parsed(b)
  {
    if |b| > 0 {
      var init := b[..|b| - 1];
      ParsedAppend(a, init);
      assert (a + b)[..|a + b| - 1] == a + init;
      assert (a + b)[|a + b| - 1] == b[|b| - 1];
    } else {
      assert a + b == a;
    }
  }

  // ---------------------------------------------------------------------
  // The file as the settings loader reads it back
  // ---------------------------------------------------------------------


  /** The lines of a text as a file object yields them: each up to and including its '\n'. */
  function ReadLines(s: string): (r: seq<string>)
    decreases |s|
  {
    if s == "" then []
    else
      var i := IndexOf(s, '\n');
      if i.None? then [s] else [s[..i.value + 1]] + ReadLines(s[i.value + 1..])
  }


  /** `f.writelines(lines)`: the text written. */
  function FileText(lines: seq<string>): string
  {
    Concat(lines)
  }


  /** A line ending with its only '\n' is read back whole, and reading goes on after it. */
  lemma ReadLinesFirst(l: string, rest: string)
    requires l != "" && '\n' !in l[..|l| - 1] && l[|l| - 1] == '\n'
    ensures ReadLines(l + rest) == [l] + ReadLines(rest)
  {
    var s := l + rest;
    assert s[|l| - 1] == '\n';
    assert s[..|l| - 1] == l[..|l| - 1];
    var k := IndexOf(s, '\n');
    assert k.Some?;
    assert s[..|l|] == l && s[|l|..] == rest;
  }


  /** A text with no '\n' is read back as one line. */
  lemma ReadLinesLast(l: string)
    requires l != "" && '\n' !in l
    ensures ReadLines(l) == [l]
  {
  }


  /** The lines of a file as read: none empty, each ending with its only '\n' except perhaps the last. */
  predicate FileLines(ls: seq<string>)
  {
    forall i :: 0 <= i < |ls| ==>
      ls[i] != "" && '\n' !in ls[i][..|ls[i]| - 1] && (i < |ls| - 1 ==> ls[i][|ls[i]| - 1] == '\n')
  }


  lemma {:induction false} ConcatFront(xss: seq<string>)
    requires |xss| > 0
    ensures Concat(xss) == xss[0] + Concat(xss[1..])
  {
    if |xss| > 1 {
      var init := xss[..|xss| - 1];
      ConcatFront(init);
      assert init[1..] == xss[1..][..|xss[1..]| - 1];
    } else {
      assert Concat(xss[1..]) == [];
      assert Concat(xss[..0]) == [];
    }
  }


  lemma FileLinesTail(ls: seq<string>)
    requires FileLines(ls) && |ls| > 0
    ensures FileLines(ls[1..])
  {
    var rest := ls[1..];
    forall i | 0 <= i < |rest|
      ensures rest[i] != "" && '\n' !in rest[i][..|rest[i]| - 1] && (i < |rest| - 1 ==> rest[i][|rest[i]| - 1] == '\n')
    {
      assert rest[i] == ls[i + 1];
    }
  }


  /** A line whose last character is not '\n', and with none before, has none at all. */
  lemma NoNewline(l: string)
    requires l != "" && '\n' !in l[..|l| - 1] && l[|l| - 1] != '\n'
    ensures '\n' !in l
  {
    forall j | 0 <= j < |l|
      ensures l[j] != '\n'
    {
      if j < |l| - 1 {
        assert l[..|l| - 1][j] == l[j];
      }
    }
  }


  /** Written out and read back, the lines of a file come back as they were. */
  lemma {:induction false} ReadWritten(ls: seq<string>)
    requires FileLines(ls)
    ensures ReadLines(FileText(ls)) == ls
  {
    if |ls| > 0 {
      var l := ls[0];
      var rest := ls[1..];
      FileLinesTail(ls);
      ReadWritten(rest);
      ConcatFront(ls);
      if l[|l| - 1] == '\n' {
        ReadLinesFirst(l, FileText(rest));
      } else {
        assert |rest| == 0;
        assert FileText(rest) == [];
        assert l + FileText(rest) == l;
        NoNewline(l);
        ReadLinesLast(l);
      }
    }
  }


  /** A written `key=value` line is a line of its own: one '\n', at its end. */
  lemma LineShape(key: string, value: string)
    requires NoSpace(key) && '\n' !in value
    ensures var l := EnvLineText(key, value);
            l != "" && '\n' !in l[..|l| - 1] && l[|l| - 1] == '\n'
  {
    var l := EnvLineText(key, value);
    assert l[..|l| - 1] == key + "=" + value;
  }


  lemma GluedIsWord(v0: string, key: string, value: string)
    requires NoSpace(v0) && NoSpace(key) && NoSpace(value)
    ensures NoSpace(v0 + key + "=" + value)
  {
    var glued := v0 + key + "=" + value;
    forall i | 0 <= i < |glued|
      ensures !IsSpace(glued[i])
    {
      if i < |v0| {
        assert glued[i] == v0[i];
      } else if i < |v0| + |key| {
        assert glued[i] == key[i - |v0|];
      } else if i > |v0| + |key| {
        assert glued[i] == value[i - |v0| - |key| - 1];
      }
    }
  }


  /** A written setting line is read back as one line. */
  lemma OneLineRead(k: string, v: string)
    requires NoSpace(k) && '\n' !in v
    ensures ReadLines(k + "=" + v + "\n") == [k + "=" + v + "\n"]
  {
    var s := k + "=" + v + "\n";
    assert '\n' !in s[..|s| - 1] by {
      assert s[..|s| - 1] == k + "=" + v;
      forall i | 0 <= i < |s| - 1
        ensures s[i] != '\n'
      {
        if i < |k| {
          assert s[i] == k[i];
        } else if i > |k| {
          assert s[i] == v[i - |k| - 1];
        }
      }
    }
    ReadLinesFirst(s, "");
    assert s + "" == s;
  }


  /** The settings of a one-line file are what its line sets. */
  lemma EnvOfOne(s: string)
    requires ParseLine(s).Assign?
    ensures EnvOf([s]) == map[ParseLine(s).key := ParseLine(s).value]
  {
    var p := ParseLine(s);
    assert Parsed([s]) == [p] by {
      ParsedOne(s);
    }
    AssignedOne(p);
  }


  lemma ParsedOne(s: string)
    ensures Parsed([s]) == [ParseLine(s)]
  {
    assert [s][..0] == [];
  }


  lemma AssignedOne(p: EnvLine)
    requires p.Assign?
    ensures Assigned([p]) == map[p.key := p.value]
  {
    assert [p][..0] == [];
  }


  lemma Glue(k0: string, v0: string, key: string, value: string)
    ensures k0 + "=" + (v0 + key + "=" + value) + "\n" == (k0 + "=" + v0) + (key + "=" + value + "\n")
  {
  }

  /** The new lines can be appended: the file is empty, ends with '\n', or already set every updated key. */
  predicate AppendSafe(lines: seq<string>, upd: seq<(string, string)>)
  {
    lines == [] || EndsWith(lines[|lines| - 1], "\n") || Appended(upd, Written(lines, upd)) == []
  }

  /** One line of the rewritten file has the shape of a line of a file. */
  lemma RewrittenLineShape(lines: seq<string>, upd: seq<(string, string)>, i: nat)
    requires FileLines(lines) && AppendSafe(lines, upd) && Readable(upd)
    requires i < |Rewritten(lines, upd)|
    ensures var out := Rewritten(lines, upd);
            out[i] != "" && '\n' !in out[i][..|out[i]| - 1] && (i < |out| - 1 ==> out[i][|out[i]| - 1] == '\n')
  {
    var out := Rewritten(lines, upd);
    RewrittenShape(lines, upd, i);
    if i < |lines| {
      var m := Matched(lines[i], upd);
      if m.Some? {
        var p := ParseLine(lines[i]);
        var q :| 0 <= q < |upd| && upd[q] == (p.key, ValueOf(upd, p.key).value);
        LineShape(m.value.0, m.value.1);
      } else if i == |lines| - 1 && i < |out| - 1 {
        var l := lines[i];
        assert l[|l| - 1..][0] == l[|l| - 1];
      }
    } else {
      var written := Written(lines, upd);
      AppendedSource(upd, written, i - |lines|);
      var q :| 0 <= q < |upd| && upd[q].0 !in written && Appended(upd, written)[i - |lines|] == EnvLineText(upd[q].0, upd[q].1);
      assert out[i] == EnvLineText(upd[q].0, upd[q].1);
      LineShape(upd[q].0, upd[q].1);
    }
  }

  /** When the new lines can be appended, the rewritten file keeps the shape of a file's lines. */
  lemma RewrittenFileLines(lines: seq<string>, upd: seq<(string, string)>)
    requires FileLines(lines) && AppendSafe(lines, upd) && Readable(upd)
    ensures FileLines(Rewritten(lines, upd))
  {
    var out := Rewritten(lines, upd);
    forall i | 0 <= i < |out|
      ensures out[i] != "" && '\n' !in out[i][..|out[i]| - 1] && (i < |out| - 1 ==> out[i][|out[i]| - 1] == '\n')
    {
      RewrittenLineShape(lines, upd, i);
    }
  }

  /**
   * Reading back the file `update_config` writes, the settings loader finds
   * every updated key with its new value, provided the new lines could be
   * appended (otherwise see `UnterminatedSettingSwallowed`).
   */
  lemma UpdatedKeysReadBack(lines: seq<string>, upd: seq<(string, string)>, m: nat)
    requires FileLines(lines) && AppendSafe(lines, upd) && Readable(upd) && m < |upd|
    ensures var back := EnvOf(ReadLines(FileText(Rewritten(lines, upd))));
            upd[m].0 in back && back[upd[m].0] == upd[m].1
  {
    RewrittenFileLines(lines, upd);
    ReadWritten(Rewritten(lines, upd));
    UpdatedKeysInLines(lines, upd, m);
  }

  /**
   * Reading back the file `update_config` writes, a key that was not
   * updated is found exactly as the file had it, under the same proviso.
   */
  lemma OtherKeysReadBack(lines: seq<string>, upd: seq<(string, string)>, k: string)
    requires FileLines(lines) && AppendSafe(lines, upd) && Readable(upd) && ValueOf(upd, k).None?
    ensures var back := EnvOf(ReadLines(FileText(Rewritten(lines, upd))));
            (k in back <==> k in EnvOf(lines)) && (k in back ==> back[k] == EnvOf(lines)[k])
  {
    RewrittenFileLines(lines, upd);
    ReadWritten(Rewritten(lines, upd));
    OtherKeysInLines(lines, upd, k);
  }

  /**
   * A setting line with no '\n' followed by a written line is read back as
   * one line, whose value swallows the new assignment.
   */
  lemma GluedReadBack(k0: string, v0: string, key: string, value: string)
    requires PlainKey(k0) && PlainKey(key) && NoSpace(v0) && NoSpace(value)
    ensures var glued := v0 + key + "=" + value;
            var back := ReadLines((k0 + "=" + v0) + EnvLineText(key, value));
            back == [k0 + "=" + glued + "\n"] && EnvOf(back) == map[k0 := glued]
  {
    var glued := v0 + key + "=" + value;
    Glue(k0, v0, key, value);
    GluedIsWord(v0, key, value);
    OneLineRead(k0, glued);
    NoSpaceLineValue(glued);
    ParseWrittenLine(k0, glued);
    EnvOfOne(k0 + "=" + glued + "\n");
  }

  /** A file whose one line sets another key is rewritten by appending the new line to it. */
  lemma RewrittenOther(k0: string, v0: string, key: string, value: string)
    requires PlainKey(k0) && NoSpace(v0) && k0 != key
    ensures Rewritten([k0 + "=" + v0], [(key, value)]) == [k0 + "=" + v0, EnvLineText(key, value)]
  {
    var l := k0 + "=" + v0;
    var upd := [(key, value)];
    var none: seq<Option<(string, string)>> := [None];
    assert MatchedKeys([l], upd) == none by {
      PlainLineParses(k0, v0);
      assert Matched(l, upd).None? by {
        ValueOfOther(upd, k0);
        OtherUnmatched(l, k0, upd);
      }
      MatchedKeysOne(l, upd);
    }
    assert RewriteAll([l], none) == [l] by {
      assert [l][..0] == [] && none[..0] == [];
    }
    assert Written([l], upd) == {} by {
      assert none[..0] == [];
    }
    assert Appended(upd, {}) == [EnvLineText(key, value)] by {
      assert upd[..0] == [];
    }
  }

  lemma MatchedKeysOne(l: string, upd: seq<(string, string)>)
    ensures MatchedKeys([l], upd) == [Matched(l, upd)]
  {
  }

  /** A line setting a key the updates do not hold has no match among them. */
  lemma OtherUnmatched(l: string, k0: string, upd: seq<(string, string)>)
    requires ParseLine(l).Assign? && ParseLine(l).key == k0 && ValueOf(upd, k0).None?
    ensures Matched(l, upd).None?
  {
  }

  /** `k=v` with a plain key and a stripped value sets `k` to `v`. */
  lemma PlainLineParses(k: string, v: string)
    requires PlainKey(k) && Strip(v) == v
    ensures ParseLine(k + "=" + v) == Assign(k, v)
  {
    StripAssignment(k, v);
    ParseAssignment(k, v);
  }

  lemma ValueOfOther(upd: seq<(string, string)>, k: string)
    requires |upd| == 1 && upd[0].0 != k
    ensures ValueOf(upd, k).None?
  {
    assert upd[1..] == [];
  }

  /**
   * As written, `update_config` appends a new setting right after a last
   * line with no '\n': reading the file back, the old key's value swallows
   * the new line and the updated key is not set at all.
   */
  lemma UnterminatedSettingSwallowed(k0: string, v0: string, key: string, value: string)
    requires PlainKey(k0) && PlainKey(key) && NoSpace(v0) && NoSpace(value) && k0 != key
    ensures var back := ReadLines(FileText(Rewritten([k0 + "=" + v0], [(key, value)])));
            back == [k0 + "=" + (v0 + key + "=" + value) + "\n"] && key !in EnvOf(back)
  {
    var l := k0 + "=" + v0;
    var t := EnvLineText(key, value);
    RewrittenOther(k0, v0, key, value);
    assert FileText([l, t]) == l + t by {
      ConcatFront([l, t]);
      ConcatFront([t]);
      assert [l, t][1..] == [t] && [t][1..] == [];
    }
    GluedReadBack(k0, v0, key, value);
  }

  // ---------------------------------------------------------------------
  // The rewrite as intended
  // ---------------------------------------------------------------------

  /** The last line ended with '\n' when it lacks one. */
  function Terminated(ls: seq<string>): (r: seq<string>)
    ensures |r| == |ls|
  {
    if |ls| > 0 && !EndsWith(ls[|ls| - 1], "\n") then ls[..|ls| - 1] + [ls[|ls| - 1] + "\n"] else ls
  }

  lemma TerminatedAt(ls: seq<string>, i: nat)
    requires i < |ls|
    ensures Terminated(ls)[i] == ls[i] || Terminated(ls)[i] == ls[i] + "\n"
    ensures i < |ls| - 1 ==> Terminated(ls)[i] == ls[i]
  {
  }

  /**
   * Ending the last line keeps the shape of a file's lines, leaves every
   * line setting what it set, and leaves the last line ended.
   */
  lemma TerminatedFileLines(ls: seq<string>)
    requires FileLines(ls)
    ensures FileLines(Terminated(ls))
    ensures Parsed(Terminated(ls)) == Parsed(ls)
    ensures ls != [] ==> EndsWith(Terminated(ls)[|ls| - 1], "\n")
  {
    var t := Terminated(ls);
    if |ls| > 0 && !EndsWith(ls[|ls| - 1], "\n") {
      var x := ls[|ls| - 1];
      assert x[|x| - 1..] == [x[|x| - 1]];
      NoNewline(x);
      assert (x + "\n")[..|x|] == x;
      assert t[|ls| - 1] == x + "\n";
    }
    forall i | 0 <= i < |t|
      ensures t[i] != "" && '\n' !in t[i][..|t[i]| - 1] && (i < |t| - 1 ==> t[i][|t[i]| - 1] == '\n')
      ensures ParseLine(t[i]) == ParseLine(ls[i])
    {
      TerminatedAt(ls, i);
      if t[i] != ls[i] {
        StripNewline(ls[i]);
      }
    }
  }

  /**
   * `update_config` as intended: the file's last line is ended before the
   * lines are rewritten, so that a setting appended after it goes on a
   * line of its own.
   */
  function RewrittenSafe(lines: seq<string>, upd: seq<(string, string)>): seq<string>
  {
    Rewritten(Terminated(lines), upd)
  }

  /** The two differ only on a file whose last line has no '\n'. */
  lemma SafeRewriteAgrees(lines: seq<string>, upd: seq<(string, string)>)
    requires lines == [] || EndsWith(lines[|lines| - 1], "\n")
    ensures RewrittenSafe(lines, upd) == Rewritten(lines, upd)
  {
    assert Terminated(lines) == lines;
  }

  /**
   * Reading back the file the corrected rewrite writes, the settings loader
   * finds every updated key with its new value, whatever the last line of
   * the old file.
   */
  lemma SafeUpdatedKeysReadBack(lines: seq<string>, upd: seq<(string, string)>, m: nat)
    requires FileLines(lines) && Readable(upd) && m < |upd|
    ensures var back := EnvOf(ReadLines(FileText(RewrittenSafe(lines, upd))));
            upd[m].0 in back && back[upd[m].0] == upd[m].1
  {
    TerminatedFileLines(lines);
    UpdatedKeysReadBack(Terminated(lines), upd, m);
  }

  /**
   * Reading back the file the corrected rewrite writes, a key that was not
   * updated is found exactly as the old file had it.
   */
  lemma SafeOtherKeysReadBack(lines: seq<string>, upd: seq<(string, string)>, k: string)
    requires FileLines(lines) && Readable(upd) && ValueOf(upd, k).None?
    ensures var back := EnvOf(ReadLines(FileText(RewrittenSafe(lines, upd))));
            (k in back <==> k in EnvOf(lines)) && (k in back ==> back[k] == EnvOf(lines)[k])
  {
    TerminatedFileLines(lines);
    OtherKeysReadBack(Terminated(lines), upd, k);
  }
}
