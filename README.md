# baixa-pdpj in Dafny

A model of the core of baixa-pdpj, the tool that downloads the court
processes of a list of debtors from the PDPJ (Plataforma Digital do Poder
Judiciário) search and detail API, consolidates them and builds one line
per debtor. The pipeline has three stages and a small web application
around them:

- **Client** (`api_client.py`): the HTTP client with round-robin tokens,
  the retry loop of `get` (429 waits, 5xx and network retries, the attempt
  budget), the cursor pager with its page checkpoints, the searches by
  document and by name (with the merge by process number) and the detail
  download.
- **CacheStore** (`cache_manager.py`): the persistent sets and
  dictionaries (processes not found, missing branches, oversized cases,
  process cache, SELIC cache), their hit counters and the capped error log.
- **Utils**, **Settings**, **Flags** (`utils.py`, `config.py`, `flags.py`):
  document cleaning and validation, CNJ numbers and court segments, the
  configuration read from the `.env` file and the environment, and the
  flags computed for each process.
- **Coleta** (`s1_coleta_unificada.py`): stage 1, the collection: the
  searches planned for each person, the queue of detail downloads, the
  workers that drain it, the global statistics.
- **Organiza** (`s2_organiza_processos.py`): stage 2, one row per process,
  deduplicated, joined with the input sheet and projected on the export
  columns.
- **Visao** (`s3_visao_devedor.py`): stage 3, the processes grouped by
  entity, with their counts and the download statistics of each entity.
- **WebState**, **WebPipeline**, **WebConfig**, **WebFrames**,
  **WebUpload**, **WebFiles**, **WebDocs** (`web/state.py` and
  `web/routes/`): the run state shared by the web application, the pipeline
  routes, the configuration routes, the paginated data tables with their
  frame cache, the upload of the input sheet, the output file browser and
  the Markdown-to-HTML converter of the documentation page.

The shared vocabulary is in **Common** (Option, the string operations of
Python the code relies on, `int()` and `str()` on integers), **Process**
(the JSON shapes the API returns, and the files on disk as a `Disk` object
whose map the methods update) and **Frames** (a data frame as a set of
columns and a sequence of rows, each cell text, an integer or missing).

Objects that the program updates in place are classes (`PDPJClient`,
`CacheManager`, `GlobalStats`, `ColetaUnificada`, `FlagRegistry`,
`Organizador`, `DFCache`, `RunInfo`, `AppState`, `Disk`) whose methods are proved against specification
functions over their old state; the pure parts are functions with lemmas.
The network, the disk, the clock and the spreadsheet reader are parameters:
the k-th request the client ever sends gets the answer `net(k)`, the disk is
a map from file names to JSON bodies, and a sheet or a frame read from disk
is passed in. `_inline` (bold, italics, code and links of the Markdown
converter) is a function parameter of `MarkdownToHtml`.

Five defects of the program are recorded under "## Findings"; in each case
the member that models the program as written is the one the operations
use, and the corrected definition sits beside it with the intended property
proved. `WebUpload.IssueDespiteAlias` shows a related behaviour of the
upload route that is kept as written.

## Model

| member | source | states |
|---|---|---|
| Client.RetryAfterSeconds | api_client.py:97 | a missing Retry-After header reads as 30 seconds; a present one reads as its decimal value, or as nothing when `int()` rejects it |
| Client.RateLimitSeconds | api_client.py:98 | the 429 wait is at least the advised seconds and at least ten seconds per attempt so far, and is one of the two |
| Client.StepSleeps | api_client.py:94-121 | an attempt records one sleep exactly when its outcome is retried (a 429, a 5xx status, a connection error or a timeout) |
| Client.Final | api_client.py:94-113 | an outcome that is not retried returns the response exactly when it is an answer other than 429, and that response is the answer |
| Client.AttemptsShape | api_client.py:82-122 | `get` makes no attempt when the budget is spent and otherwise between one and the remaining budget; every attempt but the last was retried; it raises the exhaustion error exactly when the whole budget went to retried attempts, and otherwise ends with the last outcome's result |
| Client.AttemptsReturned | api_client.py:83-113 | a returned response answers the last request, is neither a 429 nor a 5xx, and every earlier attempt failed in a retried way |
| Client.ReplayCounts | api_client.py:88-119 | over n attempts the request counter grows by n, the page and detail counters do not move, network errors never outnumber retries, and when every attempt was retried each counts as a retry or a 429 and slept once |
| Client.GetAccounting | api_client.py:82-122 | after a `get` from zero counters: requests equal attempts and stay within the budget; attempts are retries plus 429s plus the final one when it returned; network errors never outnumber retries; one sleep per attempt but the last unless the budget ran out |
| Client.ReplayEnded | api_client.py:88-119 | when all but the last attempt were retried, the retries and 429s number the attempts but the last (plus one when the last is a 429) and only the retried attempts slept |
| Client.RetriesThenSuccess | api_client.py:106-113 | r transient failures then a non-429, non-5xx answer within the budget: that answer is returned after r + 1 attempts with exactly r retries and no 429 |
| Client.ReplayNoRateLimit | api_client.py:106-121 | 5xx statuses and network errors each count as one retry and never as a 429 |
| Client.RateLimitedOnce | api_client.py:94-104 | a 429 advising five seconds and then a 200: the 200 is returned after two attempts, one ten-second wait, one 429 counted and no retry counted |
| Client.RetryAfterFive | api_client.py:97 | the header "5" reads as five seconds |
| Client.RequestsSent | api_client.py:90-92 | n attempts send n requests |
| Client.RequestsSentTokens | api_client.py:66-90 | attempts without a pinned token use the tokens round-robin from the cursor; a pinned token is used by every attempt |
| Client.HeadersFor | api_client.py:75 | the headers hold exactly Authorization (the bearer token) and Accept |
| Client.PDPJClient.constructor | api_client.py:29-50 | keeps the tokens, the base URL without trailing slashes and the settings; cursor 0, all six counters zero, no request sent |
| Client.PDPJClient.NextToken | api_client.py:66-70 | returns the token under the cursor modulo the token count and advances the cursor by one, nothing else changing |
| Client.PDPJClient.Headers | api_client.py:72-75 | a pinned token is used as given without moving the cursor; otherwise the next token of the rotation is used |
| Client.PDPJClient.Attempt | api_client.py:84-121 | one pass of the retry loop: it ends `get` exactly when the outcome is not retried, with that outcome's result, and updates counters, sleeps, cursor and sent requests as the attempt's effect says |
| Client.PDPJClient.Get | api_client.py:79-122 | result, counters, sleeps and cursor are those of the specification run `GetRun` from the current request count, which the lemmas above characterise |
| Client.PDPJClient.ReadPage | api_client.py:164-187 | reading one page's data is the specification step `TakePage` |
| Client.PDPJClient.FetchOnce | api_client.py:149-162 | fetching one page is the specification `FetchPage`: the checkpoint when there is one, otherwise a `get` whose 200 answer is saved |
| Client.PDPJClient.PageOnce | api_client.py:148-189 | one pass of the pager loop is the specification `PageStep` |
| Client.PDPJClient.Paginate | api_client.py:142-189 | the whole pager loop is the specification `Pagination` |
| Client.PDPJClient.BuscarPorDocumento | api_client.py:126-196 | the document search is the specification `DocSearchRun` over the document's query |
| Client.PDPJClient.BuscarPorNome | api_client.py:200-261 | the name search is the specification `NameSearchRun`: both fields' pagers, then the merge by process number |
| Client.PDPJClient.BuscarDetalheProcesso | api_client.py:265-295 | the detail download is the specification `DetailRun` |
| Client.PDPJClient.GetStats | api_client.py:339-341 | returns the current counters |
| Client.HandleOutcome | api_client.py:94-121 | the outcome of one request ends `get` exactly when it is not retried, with its result; counters, sleep and kept failure are as the outcome dictates |
| Client.AfterNoAttempts | api_client.py:83 | zero attempts leave the client state as it was |
| Client.AfterAttemptsStep | api_client.py:83-121 | the state after n + 1 attempts is that after n attempts plus one attempt's effect |
| Client.AttemptsStep | api_client.py:83-121 | an attempt that is not retried ends the run with its result; a retried one hands on to the next attempt with the failure kept |
| Client.RightStripSlash | api_client.py:37 | the result is a prefix of the input, does not end in '/', and only slashes were dropped |
| Client.PageParams | api_client.py:149-150 | without a cursor the query is unchanged; with one, `searchAfter` is set to the cursor joined with "," |
| Client.LoadPage | api_client.py:312-323 | reads the page checkpoint of the directory, none without a directory or file |
| Client.SavePage | api_client.py:325-335 | writes the page checkpoint of the directory and nothing without a directory |
| Client.ExtractSearchAfter | api_client.py:299-310 | a non-empty `searchAfter` wins; otherwise the last item's `sort`; empty exactly when neither exists |
| Client.TakePage | api_client.py:164-187 | a read page appends its items; the run ends at the item cap exactly when a non-empty page reached it; it continues to the next page only under the cap with the extracted cursor; only `pages_ok` may grow |
| Client.FetchPageEnv | api_client.py:153-162 | fetching a page does not depend on the item cap |
| Client.PageStep | api_client.py:148-189 | a pager step that continues moves to the next page number |
| Client.PaginationItems | api_client.py:142-187 | items only grow at the end; the item cap ends the run only when reached; any other ending leaves the items under the cap unless no page added any |
| Client.PaginationPages | api_client.py:143-189 | the page number only grows, ends past the page cap exactly when the page cap ended the run, and the first page's total stays once read |
| Client.PaginationFiles | api_client.py:153-162 | a pager run writes only its own directory's checkpoints for the pages it visited and removes no file |
| Client.PaginationFromCheckpoints | api_client.py:152-155 | pages already on disk are read from there: no request, no sleep, no cursor move and no write |
| Client.FetchPageSaves | api_client.py:153-162 | a checkpointed page costs no request; a file is written only for a 200 answer, in a checkpoint directory, under that page's name |
| Client.DocParams | api_client.py:136-140 | the document query has exactly the document, court and page size, plus the class when one is set |
| Client.DocSearchTotals | api_client.py:164-196 | the first read page fixes `total_api` (0 when absent, then the item count) and the case is oversized exactly when that total exceeds 5000 |
| Client.NameParams | api_client.py:213-214 | the name query has exactly the field, the court and the page size |
| Client.NumbersAppend | api_client.py:251-254 | the numbers of a list grow by the appended item's number |
| Client.MergedUnique | api_client.py:251-256 | the merge has unique, non-empty numbers and only items of the input |
| Client.MergedFirst | api_client.py:251-256 | the merge's numbers are the input's numbers minus "", and the first item seen for each number is kept |
| Client.MergeInto | api_client.py:251-254 | the merge loop extends the merge of the items so far to the merge of all of them |
| Client.NewClient | api_client.py:34-35 | there is no client exactly when there is no token; otherwise a fresh client with zero counters and cursor |
| Client.DetailFacts | api_client.py:271-295 | a saved detail costs no request; `details_ok` grows by one exactly when `get` returned a 200 with JSON, which is then the data; otherwise the data is `{}`; only the detail's own path is written |
| CacheStore.LoadSet | cache_manager.py:58-67 | a JSON list of hashable values loads as the set of its elements; anything else (no file, not JSON, not a list) loads as the empty set; every element is hashable |
| CacheStore.LoadDict | cache_manager.py:69-78 | a JSON object loads as itself; anything else as the empty dict |
| CacheStore.AppendCapped | cache_manager.py:177-180 | the new entry is last, the log keeps at most 2000 entries, and those kept are the most recent ones in order |
| CacheStore.CacheManager.constructor | cache_manager.py:35-51 | every collection is loaded from its file and the hit counters start at zero |
| CacheStore.CacheManager.IsProcesso404 | cache_manager.py:104-109 | answers membership in the not-found set; the p404 counter grows by one exactly on a hit; nothing else changes |
| CacheStore.CacheManager.AddProcesso404 | cache_manager.py:111-113 | the not-found set gains the number, nothing else changes |
| CacheStore.CacheManager.IsFilialInexistente | cache_manager.py:117-119 | answers membership in the nonexistent-branch set |
| CacheStore.CacheManager.AddFilialInexistente | cache_manager.py:121-123 | the nonexistent-branch set gains the CNPJ, nothing else changes |
| CacheStore.CacheManager.IsCasoGigante | cache_manager.py:127-129 | answers whether the document has a recorded total |
| CacheStore.CacheManager.AddCasoGigante | cache_manager.py:131-133 | sets the document's total, keeping every other entry |
| CacheStore.CacheManager.IsProcessoProcessado | cache_manager.py:137-139 | answers whether the process has a recorded status |
| CacheStore.CacheManager.GetStatusProcesso | cache_manager.py:141-143 | the recorded status, or "" for a process never recorded |
| CacheStore.CacheManager.AddProcesso | cache_manager.py:145-147 | sets the process's status, keeping every other entry |
| CacheStore.CacheManager.SepararProcessados | cache_manager.py:149-153 | splits the list into the recorded and the unrecorded numbers: each element lands in exactly one list, as often as it occurs, each list in input order |
| CacheStore.CacheManager.GetSelic | cache_manager.py:157-162 | the stored factor or null; the selic counter grows by one exactly when the answer is not null |
| CacheStore.CacheManager.SetSelic | cache_manager.py:164-166 | overwrites one factor, keeping every other entry |
| CacheStore.CacheManager.LogErro | cache_manager.py:170-184 | the files afterwards are `WithError` of the files before and the new entry; every other attribute is unchanged |
| CacheStore.WithErrorFacts | cache_manager.py:170-184 | only the error log changes; a missing or list log becomes a list of at most 2000 entries ending with the new one; a log that is not a list is left as it was |
| CacheStore.CacheManager.LogDetalhado | cache_manager.py:186-198 | the detailed log maps the document to the info with a timestamp, other entries kept; a log that is not an object is left as it was |
| CacheStore.CacheManager.SaveAll | cache_manager.py:202-207 | after saving, loading each file again gives back exactly the collection in memory, and no other file changes |
| CacheStore.CacheManager.GetStats | cache_manager.py:211-220 | the size of every collection and a copy of the hit counters |
| CacheStore.ListOf | cache_manager.py:84 | `list(s)` holds every element of the set once |
| CacheStore.LoadSetOfList | cache_manager.py:64-84 | loading a list written from a set of hashable values gives back that set |
| Utils.NormalizeDocument | utils.py:17-26 | the result is all digits; it is "" exactly when the input has no digits; otherwise it has 11 characters for up to 11 digits and 14 beyond; up to 14 digits are kept as a zero-padded suffix, and a longer run keeps its last 14 |
| Utils.NormalizeIdempotent | utils.py:17-26 | normalising a normalised document changes nothing |
| Utils.WeightedSumPrefix | utils.py:34-48 | the weighted digit sum reads only the first p characters |
| Utils.CheckDigit | utils.py:35-49 | the mod-11 check digit is 0 for a remainder below 2, otherwise 11 minus the remainder, always below 10 |
| Utils.CheckDigitText | utils.py:36-49 | the check digit as text is the single character of that digit |
| Utils.CpfWeights | utils.py:34 | the CPF weights are p + 1 - i for position i of a p-digit prefix |
| Utils.GenerateCnpj | utils.py:53-63 | a generated CNPJ is root + branch followed by two check digits |
| Utils.GenerateCnpjValid | utils.py:40-63 | for an 8-digit root and a 4-digit branch the result is 14 digits starting with root + branch, and it passes `validar_cnpj` exactly when its digits are not all the same |
| Utils.CnpjRoot | utils.py:66-68 | the first 8 characters of a 14-character document, else "" |
| Utils.DocumentKind | utils.py:71-78 | CNPJ exactly when the normalised document has 14 characters and valid check digits; CPF exactly when it has 11 and valid check digits |
| Utils.ProcessYear | utils.py:121-126 | no '.' raises; a result is the integer reading of the second '.'-segment |
| Utils.SplitCount | utils.py:123-124 | splitting gives at least two parts exactly when the separator occurs |
| Utils.CnjSplit | utils.py:279 | the six segments of a CNJ number split back out of it when none holds a separator |
| Utils.LabourCourtReadsCourtSegment | utils.py:277-282 | for a number laid out as NNNNNNN-DD.AAAA.J.TR.OOOO the labour-court test holds exactly when the TR segment is "5", whatever J is |
| Utils.SidesDisjoint | utils.py:225-232 | no party is counted on both sides |
| Utils.PartiesString | utils.py:220-239 | "" without parties; otherwise the first active name, " X ", the first passive name, stripped, then " e OUTROS (n)" for the n extra names when n is positive |
| Utils.LowerAll | utils.py:286 | each extinction term is lower-cased, in order |
| Utils.ExtinctFlag | utils.py:315-327 | 1 exactly when some tramitação has a movement (or a last movement) whose lower-cased description contains an extinction term, else 0 |
| Utils.Unique | utils.py:334-336 | the same elements as the input, each once, never longer |
| Utils.UniqueOfDistinct | utils.py:334-336 | a list without repeats is its own `_unique` |
| Utils.UniqueSnoc | utils.py:334-336 | appending an element keeps it exactly when it was not seen before: the first occurrence wins |
| Utils.TierOf | utils.py:346-351 | class 1116 decides the execução-fiscal tier; the polo-ativo tier needs a non-empty document |
| Utils.TierNumbers | utils.py:343-345 | items without a number are skipped |
| Utils.Prioritize | utils.py:339-352 | the three lists are the deduplicated in-order numbers of each tier |
| Utils.TiersCover | utils.py:342-351 | a number lands in some tier exactly when some item carries it |
| Utils.NoDocNoPoloAtivo | utils.py:348 | without a document the polo-ativo tier is empty |
| Utils.TierNumbersMember | utils.py:342-351 | a number is in a tier exactly when some item with that number has that tier |
| Utils.TiersDisjoint | utils.py:346-351 | when numbers identify items, no number is in two tiers |
| Utils.ValidDocs | utils.py:366-376 | only normalised numbers that are a valid CPF or CNPJ are collected |
| Utils.ItemsWithDoc | utils.py:377-378 | the items a document appears in, in order |
| Utils.AppendToAll | utils.py:377-378 | `setdefault(...).append` adds exactly the found documents as keys |
| Utils.DocIndexStep | utils.py:362-378 | one more item appends it under each of its documents |
| Utils.ExtractDocuments | utils.py:359-379 | the keys are exactly the valid documents found in some item, each mapped to the items containing it in input order |
| Utils.NotFoundNoItems | utils.py:359-379 | a document that occurs in no item has no items |
| Settings.BoolReadsWritten | config.py:27-30 | "true"/"false" read back as the boolean written; None and "" read as false |
| Settings.BoolIgnoresCase | config.py:30 | `_bool` gives the same answer for the text, its lower-case and its upper-case forms |
| Settings.IntReadsWritten | config.py:33-37 | `_int(str(n))` is n whatever the default; text that is not an integer, and None, give the default |
| Settings.ParseStripped | config.py:182-185 | a stripped line is an assignment exactly when it is non-empty, not a comment and holds '='; the key and value are the stripped sides of the first '=' |
| Settings.Parsed | config.py:181-185 | each line of the file is parsed in order |
| Settings.ReadEnv | config.py:178-185 | the loop fills `env_vals` with the specification map `EnvOf` of the lines |
| Settings.AssignedLast | config.py:185 | a later assignment to a key overrides earlier ones |
| Settings.EnvOfLast | config.py:181-185 | a key assigned by some line maps to the value on the last line that assigns it |
| Settings.EnvOfSource | config.py:181-185 | every key read comes from a line that assigns it |
| Settings.ParseWrittenLine | config.py:182-185 | a `KEY=value` line as the settings writers produce it reads back as that key and value, for any value without surrounding whitespace or line break (inner spaces included) |
| Settings.Lookup | config.py:187-188 | `_g`: the file's value beats the process environment, which beats the default |
| Settings.NumWorkers | config.py:153 | the worker count lies in [1, 8]; it is 1 without tokens, the product when that lies in [1, 8], and 8 above |
| Settings.TokenList | config.py:191 | the token list holds no empty token |
| Settings.FromEnvBounds | config.py:175-217 | a configuration read from the file and the environment has between 1 and 8 workers and no empty token |
| Settings.IntSettingReads | config.py:199-213 | an integer written with `str` in the file or the environment is read back; a key absent from both gives the default |
| Settings.BoolSettingReads | config.py:206-212 | "true"/"false" in the file are read back; a key absent everywhere gives the default |
| Settings.FileBeatsEnvironment | config.py:187-205 | `MAX_FILIAIS` is taken from the file when it is there, from the environment otherwise |
| Settings.DefaultTokens | config.py:153 | without `PDPJ_TOKENS` anywhere there is no token and one worker |
| Settings.DefaultBlacklist | config.py:215 | the default blacklist is the single root "9999" |
| Settings.DefaultLimits | config.py:203-205 | by default one process per tier, two per root and one branch |
| Settings.DefaultFlags | config.py:206-207 | by default details are not downloaded and document search is on |
| Settings.Validar | config.py:221-232 | no errors exactly when there are tokens, each longer than 50 characters, a base URL and an input file; the missing-token and invalid-token errors never occur together; each error is reported exactly when its condition holds |
| Settings.ToDict | config.py:157-167 | the keys are the attributes not starting with "_"; sets become lists holding the same elements once each; other values are unchanged |
| Flags.PartesMember | flags.py:63-69 | a party is collected exactly when some tramitação lists it |
| Flags.NomesPolo | flags.py:72-78 | the names of a pole are no more than the parties |
| Flags.NomesPoloMember | flags.py:72-78 | a name is listed for a pole exactly when some party on that pole (compared case-insensitively) carries it, upper-cased and stripped |
| Flags.DocNoPoloAtivo | flags.py:81-89 | the ATIVO-side document test of the flags is the one the prioritisation uses |
| Flags.NamesWithTerm | flags.py:133-136 | some listed name of the pole contains a term exactly when some party on the pole has a name containing it |
| Flags.AnulatoriaParties | flags.py:127-136 | the annulment flag holds exactly when the document is non-empty, on the ATIVO side, and a state body is on the PASSIVO side |
| Flags.AnulatoriaNeedsDoc | flags.py:128-129 | without a document there is no annulment flag |
| Flags.AtivoFlagsParties | flags.py:142-158 | the PGFN and bank flags hold exactly when a party on the ATIVO side has a name containing one of their terms |
| Flags.ExecFiscalFlagAgrees | flags.py:164-165 | the execução-fiscal flag is the classification's class-1116 test |
| Flags.TrabalhistaReadsCourtSegment | flags.py:171-174 | for a number laid out as NNNNNNN-DD.AAAA.J.TR.OOOO the labour flag holds exactly when TR is "5" |
| Flags.EvaluatedColumns | flags.py:42-48 | the result has one column "Flag <label>" per registered flag and nothing else |
| Flags.EvaluatedBits | flags.py:44-47 | every column holds 0 or 1 |
| Flags.EvaluatedValue | flags.py:43-47 | a flag whose label no later flag shares has 1 when its predicate holds and 0 when it fails or raises |
| Flags.FlagRegistry.constructor | flags.py:124-174 | the registry holds the five built-in flags in declaration order |
| Flags.FlagRegistry.Register | flags.py:17-34 | the entry is stored under the key, replacing an earlier one that keeps its place, and the function is handed back unchanged |
| Flags.FlagRegistry.Listar | flags.py:51-56 | one description per flag, in registry order, with its key, label, description and colour |
| Flags.FlagRegistry.Avaliar | flags.py:37-48 | evaluating the flags is the specification `Evaluated` over the registry order |
| Coleta.BumpedCounters | s1_coleta_unificada.py:46-49 | `inc` adds each keyword's value to that counter, a missing attribute counting as 0, creates the attributes it names and leaves the others alone |
| Coleta.BumpedCommute | s1_coleta_unificada.py:46-49 | two increments commute, so the counters do not depend on the order in which workers take the lock |
| Coleta.BumpedShape | s1_coleta_unificada.py:46-49 | an increment keeps every counter a number |
| Coleta.GlobalStats.constructor | s1_coleta_unificada.py:32-44 | all counters start at zero |
| Coleta.GlobalStats.Inc | s1_coleta_unificada.py:46-49 | the attributes become the specification `Bumped` of the old ones, which `BumpedCounters` characterises |
| Coleta.GlobalStats.Put | s1_coleta_unificada.py:51-54 | each named attribute is overwritten, the others kept |
| Coleta.GlobalStats.Snapshot | s1_coleta_unificada.py:56-68 | a fresh map with exactly the report names, each holding its counter |
| Coleta.BumpedOne | s1_coleta_unificada.py:46-49 | incrementing one counter by one adds one to it and changes nothing else |
| Coleta.DiscoverAllExtends | s1_coleta_unificada.py:291-295 | feeding the pool keeps it well formed and only grows it: no key is lost, no stored item replaced, no tag removed |
| Coleta.DiscoverAllKeys | s1_coleta_unificada.py:291-295 | the keys afterwards are the old keys plus the numbers of the numbered items |
| Coleta.DiscoverAllOnlyTag | s1_coleta_unificada.py:291-351 | the only tag a search adds is its own |
| Coleta.DiscoverAllTagged | s1_coleta_unificada.py:293-295 | every numbered item's entry carries the search's tag |
| Coleta.DiscoverAllFirst | s1_coleta_unificada.py:294 | a number new to the pool keeps the first item of the search that has it |
| Coleta.AddToPool | s1_coleta_unificada.py:291-295 | the loop over the hits is the specification `DiscoverAll` |
| Coleta.PoolItems | s1_coleta_unificada.py:233 | the stored items in key order |
| Coleta.PoolItemsDistinct | s1_coleta_unificada.py:233 | in a well-formed pool the stored items have distinct, non-empty numbers |
| Coleta.CapLen | s1_coleta_unificada.py:369-377 | a positive cap bounds the length; no cap, or one beyond the length, keeps it |
| Coleta.Capped | s1_coleta_unificada.py:369-372 | `xs[:lim]` is the first CapLen elements, unchanged |
| Coleta.AplicarLimites | s1_coleta_unificada.py:365-379 | the selection is each tier cut to the per-tier cap, concatenated in priority order, cut to the root cap; element i is the matching tier element |
| Coleta.NoCapsSelectsAll | s1_coleta_unificada.py:369-377 | without caps the selection is every tier in order |
| Coleta.SelectionShape | s1_coleta_unificada.py:365-379 | with distinct disjoint tiers the selection has no repeats, keeps tier order, and takes at most the per-tier cap from the first tier |
| Coleta.RootCapOnlyTruncates | s1_coleta_unificada.py:376-377 | the root cap only truncates: the selection is a prefix of the uncapped one, shorter only when the cap is positive and reached |
| Coleta.UnicoOf | s1_coleta_unificada.py:241-248 | a selected number's entry holds its pool tags, sorted without repeats, and is not yet downloaded |
| Coleta.BuildUnicos | s1_coleta_unificada.py:239-248 | one entry per selected number, as `UnicoOf` builds it |
| Coleta.Slashless | s1_coleta_unificada.py:261 | replacing '/' by '_' keeps the length and every other character and leaves no '/' |
| Coleta.MarkOkFacts | s1_coleta_unificada.py:265 | exactly the listed numbers are set to "ok"; every other entry is kept |
| Coleta.DispositionsPartition | s1_coleta_unificada.py:257-268 | every selected number is skipped as not found, found on disk or queued, and exactly one of these |
| Coleta.AllSettledStep | s1_coleta_unificada.py:400-406 | settling one more number keeps the others settled: the not-found set only grows and the process cache only gains an "ok" |
| Coleta.MarkDownloaded | s1_coleta_unificada.py:266 | marking entries downloaded keeps the keys |
| Coleta.MarkDownloadedFacts | s1_coleta_unificada.py:266 | exactly the listed numbers are marked downloaded; nothing else changes |
| Coleta.AddedStep | s1_coleta_unificada.py:259-264 | one more count on either counter composes with the running totals |
| Coleta.EnqueueAllQueue | s1_coleta_unificada.py:257-268 | the queue gains one task per number neither known missing nor on disk, in order |
| Coleta.EnqueueAllCounts | s1_coleta_unificada.py:258-264 | `detalhes_404` and the p404 hits grow by the numbers known missing, `detalhes_cache` by those on disk |
| Coleta.EnqueueAllMarks | s1_coleta_unificada.py:263-266 | exactly the numbers found on disk are recorded "ok" and marked downloaded |
| Coleta.BranchCandidates | s1_coleta_unificada.py:308-313 | one candidate per branch number from 2 up to the limit, the generated CNPJ or none when generation raises |
| Coleta.BranchesGrow | s1_coleta_unificada.py:308-333 | reported branches and branches known to be empty are never dropped |
| Coleta.EmptyBranchesUpdate | s1_coleta_unificada.py:324-326 | reporting a branch makes it empty exactly when it had zero hits |
| Coleta.BranchStepKnown | s1_coleta_unificada.py:314-326 | one pass keeps the known-empty branches equal to those known before plus those found empty |
| Coleta.BranchesKnown | s1_coleta_unificada.py:305-334 | after the loop the cache knows as empty the branches it knew plus those the loop found with zero hits |
| Coleta.BranchStepPool | s1_coleta_unificada.py:327-331 | one pass keeps the pool well formed and grows it |
| Coleta.BranchesPool | s1_coleta_unificada.py:305-334 | the branch loop keeps the pool well formed and only grows it |
| Coleta.BranchesSource | s1_coleta_unificada.py:308-324 | a newly reported branch is a candidate the cache did not know to be empty |
| Coleta.BranchesCover | s1_coleta_unificada.py:308-333 | every candidate is reported unless the cache already knew it to be empty |
| Coleta.Selecionar | s1_coleta_unificada.py:233-235 | the tiers are those of the pool's items and the selection is `_aplicar_limites` of them |
| Coleta.BumpedSingle | s1_coleta_unificada.py:46-49 | an increment of one counter by n adds n to it |
| Coleta.RegisteredEntry | s1_coleta_unificada.py:239-268 | after the enqueue loop a selected number's entry is as built, marked downloaded exactly when its detail file already existed |
| Coleta.RegisteredUnicos | s1_coleta_unificada.py:239-269 | `processos_unicos.json` holds exactly the selected numbers, each as `RegisteredEntry` states |
| Coleta.RegisteredFound | s1_coleta_unificada.py:257-268 | the enqueue loop does not touch `processos_encontrados` |
| Coleta.ColetaUnificada.constructor | s1_coleta_unificada.py:90-98 | the collector starts with fresh zero counters, an empty queue and no files written |
| Coleta.ColetaUnificada.EnfileirarUm | s1_coleta_unificada.py:258-268 | one pass of the enqueue loop is the specification `EnqueueOne` |
| Coleta.ColetaUnificada.Enfileirar | s1_coleta_unificada.py:254-269 | the enqueue loop is the specification `EnqueueAll`, which the lemmas above characterise |
| Coleta.ColetaUnificada.Trabalhar | s1_coleta_unificada.py:397-411 | a non-empty detail is recorded "ok" and counted as downloaded; an empty one (a 404, another failure or a swallowed exception) joins the not-found set and counts in `detalhes_404` |
| Coleta.ColetaUnificada.Drenar | s1_coleta_unificada.py:391-411 | the workers, run one after another, empty the queue taking each task once, in order, and marking it done, so `join` returns; every number taken ends "ok" or not found; downloaded plus not-found grow by the number of tasks |
| Coleta.ColetaUnificada.UmaTarefa | s1_coleta_unificada.py:400-411 | one pass of a worker takes the head of the queue and marks it done; the number ends recorded "ok" with the not-found set unchanged, or in the not-found set with the process cache unchanged; downloaded plus not-found grow by one |
| Coleta.ColetaUnificada.BaixarNumero | s1_coleta_unificada.py:176-188 | a number known missing makes no request and writes no file; any other is fetched and saved by `buscar_detalhe_processo` to `<dir>/<number with / as _>.json`, and is the result exactly when that download is not empty; the number then ends "ok" (with a result) or not found (without), and downloaded plus not-found grow by one |
| Coleta.ColetaUnificada.ExecutarPorProcessos | s1_coleta_unificada.py:162-190 | the results are keyed only by stripped non-blank numbers; each result is a non-empty detail of a number not known missing beforehand and now recorded "ok"; conversely every such number not now known missing has a result; every number ends "ok" or not found; the counters grow by the number of numbers; the saved cache reloads as it is in memory |
| Coleta.ColetaUnificada.BaixarTodos | s1_coleta_unificada.py:172-188 | the loop keeps results only for the numbers given, each recorded "ok" and not known missing beforehand, covers every number not now known missing, settles every number, and counts one per number |
| Coleta.ColetaUnificada.BuscaDoc | s1_coleta_unificada.py:282-303 | the document search feeds the pool tagged "por_documento" and records an oversized case; an escaping failure is logged and reported, leaving the pool as it was |
| Coleta.ColetaUnificada.BuscaNome | s1_coleta_unificada.py:336-359 | the name search feeds the pool tagged "por_nome" and reports the documents found; an escaping failure is logged and reported |
| Coleta.ColetaUnificada.FilialUm | s1_coleta_unificada.py:309-333 | one pass of the branch loop is the specification `BranchStep` |
| Coleta.ColetaUnificada.BuscaFiliais | s1_coleta_unificada.py:305-334 | the branch loop is `BranchesOver` the candidates; the cache learns the branches found empty; the pool only grows |
| Coleta.ColetaUnificada.BuscaDocSe | s1_coleta_unificada.py:221-222 | the document search runs exactly when enabled with a document and a valid type; otherwise nothing changes |
| Coleta.ColetaUnificada.BuscaFiliaisSe | s1_coleta_unificada.py:225-226 | the branch search runs exactly when enabled for a CNPJ with a root |
| Coleta.ColetaUnificada.BuscaNomeSe | s1_coleta_unificada.py:229-230 | the name search runs exactly when enabled with a non-blank name |
| Coleta.ColetaUnificada.Buscar | s1_coleta_unificada.py:217-230 | each of the three searches runs exactly behind its gate, all feeding one pool that starts empty |
| Coleta.ColetaUnificada.Registrar | s1_coleta_unificada.py:236-269 | `processos_encontrados` grows by the selection's size, `processos_unicos.json` is written, and with detail downloads on the enqueue loop runs over the selection |
| Coleta.ColetaUnificada.Pesquisar | s1_coleta_unificada.py:217-274 | the searches, the selection, the unique-process file and the enqueue loop, with the metadata recording the searches that ran and the tier sizes |
| Coleta.ColetaUnificada.ProcessarIndividuo | s1_coleta_unificada.py:196-276 | a blacklisted person gets only a "blacklist" metadata file and no search; anyone else goes through the gated searches, the selection and the enqueue loop |
| Organiza.Projetar | s2_organiza_processos.py:115-119 | the result has exactly the export columns, as many rows as the input, every export column the input has keeps its cells and every other one is filled with "" |
| Organiza.ProjetarIdempotent | s2_organiza_processos.py:115-119 | projecting twice is projecting once |
| Organiza.StageTwoNeverFires | s2_organiza_processos.py:231-240 | after `drop_duplicates` on the CNJ number no number repeats, so the re-sorting stage never runs |
| Organiza.StageThreeKeepsAll | s2_organiza_processos.py:242-244 | the (CNJ, root) stage keeps every row the first stage kept |
| Organiza.OrigensMapDistinct | s2_organiza_processos.py:248-258 | with distinct CNJ numbers, each number's origin set is the non-blank stripped pieces of its own row |
| Organiza.OrigensMapSource | s2_organiza_processos.py:250-256 | every number in the origin map is the number of some row |
| Organiza.MergeOfDistinct | s2_organiza_processos.py:248-261 | with distinct CNJ numbers the merge only rewrites each row's own origins |
| Organiza.DeduplicarFirstRows | s2_organiza_processos.py:225-266 | `_deduplicar` keeps the first row per CNJ number in input order, each with its own origins sorted, made distinct and joined with ", " when there is an "Origens" column |
| Organiza.OwnOrigensKeepsCnj | s2_organiza_processos.py:260-261 | rewriting the origins leaves each row's CNJ number alone |
| Organiza.OrigensKeepCnj | s2_organiza_processos.py:260-261 | setting one row's origins leaves its CNJ number alone |
| Organiza.DeduplicarUnique | s2_organiza_processos.py:225-266 | after `_deduplicar` no CNJ number repeats |
| Organiza.LastColumn | s2_organiza_processos.py:297-303 | the column loop settles on the last header entry that matches, and on none exactly when no entry matches |
| Organiza.NomeMapLast | s2_organiza_processos.py:308-315 | a document (or a 14-digit document's root) maps to the name of the last sheet row that writes it |
| Organiza.NomeMapSource | s2_organiza_processos.py:308-315 | every key of the name map is written by some sheet row and holds that row's name |
| Organiza.ClientMapNames | s2_organiza_processos.py:309-311 | every name in the map is non-blank |
| Organiza.FillRowKeeps | s2_organiza_processos.py:318-326 | the join changes at most the client name of a row, and never a filled one |
| Organiza.FillRowFromCompleto | s2_organiza_processos.py:320-322 | a blank client name takes the non-blank name mapped to the row's full CNPJ |
| Organiza.FillRowFromRaiz | s2_organiza_processos.py:323-326 | a name still blank takes what the map holds for the row's root, "" when nothing |
| Organiza.JoinOnlyFillsBlanks | s2_organiza_processos.py:273-327 | the join keeps the columns, the number of rows and every cell except blank client names |
| Organiza.JoinFillsFromCompleto | s2_organiza_processos.py:318-322 | on a frame with both columns, a blank client name whose full CNPJ is in the sheet's map gets that name |
| Organiza.JoinFillsFromRaiz | s2_organiza_processos.py:318-326 | a blank client name whose full CNPJ is not in the map gets the map's entry for its root, or "" |
| Organiza.RaizDeFacts | s2_organiza_processos.py:178 | the root is a prefix of the document: 8 characters of a 14-digit CNPJ, the whole CPF, "" for any other type |
| Organiza.DetailRecordsTagged | s2_organiza_processos.py:185-201 | every record from the detail files carries the person's id and name |
| Organiza.PageRecordsTagged | s2_organiza_processos.py:206-218 | every record from the search pages carries the person's id, name and root |
| Organiza.RegistrosTagged | s2_organiza_processos.py:183-220 | every record of a person carries their id and name; page records are used only when no detail record came out, and then carry the root |
| Organiza.Organizador.constructor | s2_organiza_processos.py:60-61 | all four counters start at zero |
| Organiza.Organizador.ProcessarIndividuo | s2_organiza_processos.py:172-220 | the records are the specification `RegistrosDe`; each detail file that fails to load or extract counts one error; no other counter moves |
| Organiza.Organizador.Executar | s2_organiza_processos.py:67-119 | every person is counted and their failures added to the errors; with no records the frame is empty with the export columns and the process counters are untouched; otherwise it is dedup, join and projection of all records, with the raw and deduplicated counts |
| Organiza.Organizador.Organizar | s2_organiza_processos.py:103-119 | with records, the frame is the deduplicated, joined and projected frame of all records; the raw count is the number of records and the deduplicated count the rows left by deduplication; the person and error counters do not move |
| Organiza.Organizador.ConsolidarPaginas | s2_organiza_processos.py:138-162 | all page records tagged with id and name, the first per CNJ number kept when that column exists |
| Organiza.OrganizadoUnique | s2_organiza_processos.py:104-119 | the exported frame has no repeated CNJ number |
| Visao.EntityIdAsWritten | s3_visao_devedor.py:34-48 | `calcular_entity_id` as written never gives an empty id |
| Visao.CpfEntityIdTruncated | s3_visao_devedor.py:42-43 | as written, a CPF person's rows (whose root column holds the 11-digit CPF) get the CPF's first 8 digits as entity id, which differs from the key their download directory is counted under |
| Visao.EntityId | s3_visao_devedor.py:34-48 | the corrected entity id is never empty |
| Visao.EntityIdMatchesStats | s3_visao_devedor.py:34-48 | with the corrected id, every row of a person with a 14-digit CNPJ or an 11-digit CPF gets the key that person's download directory is counted under |
| Visao.RootOfPerson | s2_organiza_processos.py:178 | the root column of a person's row reads back, stripped, as 8 digits of the CNPJ or the whole CPF, never "NA" |
| Visao.NameKeyMatchesStats | s3_visao_devedor.py:313-321 | a valid CNPJ or CPF from the input sheet is named under the same key its download directory is counted under |
| Visao.ContagensDe | s3_visao_devedor.py:57-73 | the corrected counts have one process per row of the group |
| Visao.ContagensBounds | s3_visao_devedor.py:57-73 | active and extinct never overlap, nor do execution-fiscal and active-side non-EF; each count is within the group size; with every extinction flag 0 or 1, active plus extinct is the group size |
| Visao.FlagNumAsText | s3_visao_devedor.py:255-275 | a flag reads the same number after the frame is written to the spreadsheet and read back as text |
| Visao.RowAsTextAgrees | s3_visao_devedor.py:57-73 | a row whose class is not an integer reads the same, flag by flag, after that round trip |
| Visao.ContagensAsWrittenBounds | s3_visao_devedor.py:57-73 | as written, active and extinct never overlap, nor do execution-fiscal and active-side non-EF; each count is within the group size; with every extinction flag the integer 0 or 1, active plus extinct is the group size |
| Visao.ContagensSurviveText | s3_visao_devedor.py:57-73 | the corrected counts are the same for a frame and for its spreadsheet round trip, provided no class cell is an integer |
| Visao.TextFlagsNeverMatch | s3_visao_devedor.py:57-73 | as written, on a frame read back from the spreadsheet with both flag columns, no process counts as active, as extinct or as active-side non-EF |
| Visao.DistintosMember | s3_visao_devedor.py:124-139 | a column's distinct values are strictly sorted and are exactly the non-blank stripped texts of its cells |
| Visao.TodasOrigensMember | s3_visao_devedor.py:130-135 | the group's origins are exactly the origin pieces of its rows |
| Visao.HitsDistinct | s3_visao_devedor.py:216-218 | in a list of distinct ids an id is met once or not at all |
| Visao.SomaGruposStep | s3_visao_devedor.py:216-218 | one more row adds, over a list of ids, as many group members as the list holds its id |
| Visao.SomaGruposTotal | s3_visao_devedor.py:216-218 | over distinct ids covering every row, the group sizes add up to the number of rows |
| Visao.GruposCover | s3_visao_devedor.py:216-218 | `groupby` yields distinct ids, sorted, and every row's id as `calcular_entity_id` writes it is among them |
| Visao.AgregadosFacts | s3_visao_devedor.py:216-223 | one summary per id, each over exactly that id's rows, their sizes adding up as the groups do |
| Visao.AgregadosTotal | s3_visao_devedor.py:216-223 | the summaries of a frame account for every row once |
| Visao.ProjetadoHasStageTwoColumns | s2_organiza_processos.py:115-119 | the frame step 2 writes holds every export column, and so every column the view per debtor reads |
| Visao.AgregarTodos | s3_visao_devedor.py:214-223 | over a frame as step 2 writes it, the aggregation loop yields one summary per entity id as written (CPF cut to 8 digits) in id order, each over that entity's rows with the counts as written, accounting for every row |
| Visao.EidNomeLast | s3_visao_devedor.py:313-321 | a key holds the name of the last sheet row that writes it |
| Visao.EidNomeSource | s3_visao_devedor.py:313-321 | every key comes from some sheet row and holds that row's name |
| Visao.EidNomeSnoc | s3_visao_devedor.py:313-321 | one more sheet row overwrites its own key, or nothing when it writes none |
| Visao.NomesDevedor | s3_visao_devedor.py:281-321 | the name-map loop builds the specification map `NomesDe` of the sheet |
| Visao.PreencherNomes | s3_visao_devedor.py:313-321 | the loop body builds the map of the entries and their keys |
| Visao.Conta | s3_visao_devedor.py:353-363 | pages and detail files together never exceed the files of the directory |
| Visao.MetadataNeverCounted | s3_visao_devedor.py:359-362 | `metadata.json` and `processos_unicos.json` count neither as pages nor as details |
| Visao.StatsMapSums | s3_visao_devedor.py:340-371 | an entity's downloads are the sums over every directory counted under its id, zero for an id no directory has |
| Visao.EidsDe | s3_visao_devedor.py:348-350 | one key per directory |
| Visao.ContarDownloads | s3_visao_devedor.py:332-371 | the directory loop builds the specification map `StatsMap` |
| Visao.StatsMapSnoc | s3_visao_devedor.py:365-368 | one more directory adds its counts to its id's entry, or changes nothing without an id |
| Visao.Acumular | s3_visao_devedor.py:340-368 | the loop body builds `StatsMap` of the directories and their ids |
| Visao.Executar | s3_visao_devedor.py:190-232 | over a frame as step 2 writes it, an empty frame gives no line; otherwise one line per entity id as written, in id order, with its summary (counts as written), its name and its downloads; the summaries account for every row |
| Visao.Linhas | s3_visao_devedor.py:323-376 | one line per summary, in order, with a name exactly when the sheet was read and download counts exactly when the output directory was |
| WebState.Since | web/state.py:32-38 | an index at or past the end gives nothing and the same index; any other gives the events from that index on (a negative index counted from the end, as Python slices) and the length of the log; a non-negative index never moves back |
| WebState.ResumeLosesNothing | web/state.py:32-38 | a client that reads from `i` and later reads again from the index it was given has received exactly the events from `i` on, none lost and none repeated |
| WebState.RunIdNumber | web/state.py:68 | a run id is "run_" and at least four digits that read back as the run number |
| WebState.RunIdsDistinct | web/state.py:66-68 | different run numbers give different run ids |
| WebState.Capped | web/state.py:97-98 | the capped history is a suffix of at most 50 entries, the whole history when it is no longer than that |
| WebState.CappedKeepsNewest | web/state.py:84-98 | appending to a capped history and capping again keeps the newest entry last, preceded by the newest of the old ones |
| WebState.NewestFirst | web/state.py:145 | the history reversed |
| WebState.StatusOf | web/state.py:79 | the status is "error" exactly when there is a non-empty error message, "completed" otherwise |
| WebState.ResultOf | web/state.py:80-82 | the stored result is `result or {}`, with the message under "error" when there is one and every other key as given |
| WebState.Summary | web/state.py:91-95 | the summary holds exactly the listed keys the result has, with their values |
| WebState.RunInfo.constructor | web/state.py:16-24 | a run starts "running", unfinished, with an empty result and log |
| WebState.RunInfo.AddEvent | web/state.py:27-30 | the event, with `data or {}`, goes at the end of the log and nothing else changes |
| WebState.RunInfo.GetEventsSince | web/state.py:32-38 | the reply is `Since` of the log |
| WebState.RunInfo.LastEvent | web/state.py:45-48 | the newest event when the log is not empty, none otherwise |
| WebState.AppState.constructor | web/state.py:57-62 | no run, no history, counter at zero |
| WebState.AppState.StartRun | web/state.py:64-73 | the counter advances and a fresh run named after it, with the given steps and an empty log, becomes current; the history and last completed run are kept |
| WebState.AppState.FinishRun | web/state.py:75-99 | with no current run nothing changes; otherwise the run gets its end time, status and result, becomes the last completed run, is appended to the capped history with its summary, and no run is current |
| WebState.AppState.GetRunEvents | web/state.py:132-141 | the events since the index of the current run, else of the last completed one, else nothing at index 0, with whether a run is going and its id |
| WebState.AppState.GetCurrent | web/state.py:105-130 | the current run's id, steps, start, event count and last event; else the last completed run's summary; else idle |
| WebState.AppState.GetHistory | web/state.py:143-145 | the finished runs newest first, at most 50 |
| WebPipeline.SafeSerialize | web/routes/api_pipeline.py:119-131 | dicts keep their keys, lists and tuples become lists of the same length, a set becomes its sorted elements, NaN becomes None, anything else is kept |
| WebPipeline.SerializedIsJsonSafe | web/routes/api_pipeline.py:119-131 | for any value whose sets hold strings, no NaN, set or tuple is left anywhere in what comes out |
| WebPipeline.JsonSafeUnchanged | web/routes/api_pipeline.py:119-131 | a value with no NaN, set or tuple comes out unchanged |
| WebPipeline.SerializeIdempotent | web/routes/api_pipeline.py:119-131 | sanitising twice is sanitising once |
| WebPipeline.Payload | web/routes/api_pipeline.py:39-46 | the payload is the dict given, or a "message" entry for a string, or empty, with a non-empty `extra` dict merged over it |
| WebPipeline.Callback | web/routes/api_pipeline.py:39-47 | one event with that payload is appended to the run, whose status and result do not change |
| WebPipeline.Executar | web/routes/api_pipeline.py:15-26 | while a run is current nothing changes and the reply carries `get_current` of that run; otherwise a fresh run with the requested steps (the default three when none are named) is started and becomes current under the next run id |
| WebPipeline.Concluir | web/routes/api_pipeline.py:50-55 | a success appends "pipeline_done" with the sanitised result and completes the run with that result; a failure appends "pipeline_error" with the message and traceback and finishes the run as an error; either way the run becomes the last completed one |
| WebPipeline.Batch | web/routes/api_pipeline.py:84-88 | one message per event |
| WebPipeline.Enviar | web/routes/api_pipeline.py:84-89 | the loop sends each event with its counter and advances the counter by the number of events |
| WebPipeline.BatchIndices | web/routes/api_pipeline.py:81-89 | every message carries the position of its event in the run's log, and the next index is just past the last one sent |
| WebPipeline.Rodada | web/routes/api_pipeline.py:77-107 | one round sends the unseen events numbered from the index, then a heartbeat while the run goes on, or the end marker with the next index once it is over; with no run at all only the end marker at 0 |
| WebConfig.Mask | web/routes/api_config.py:75-81 | a token over 30 characters shows its first 12 and last 8 around "..."; one of 11 to 30 its first 6 and last 4; a shorter one only "***" |
| WebConfig.MaskHidesMiddle | web/routes/api_config.py:75-81 | the mask depends only on the length and the characters it shows, so nothing of the hidden middle leaks |
| WebConfig.MaskNeverShowsToken | web/routes/api_config.py:75-81 | a token longer than 13 characters is never shown whole |
| WebConfig.TokenView | web/routes/api_config.py:69-84 | the reply has no raw token list, the token count under "tokens_count", the masked tokens in order under "tokens_masked", and every other entry of the settings as it was |
| WebConfig.Updates | web/routes/api_config.py:99-109 | at most one update per field of the map |
| WebConfig.UpdatesSource | web/routes/api_config.py:101-109 | every update comes from a field present in the request, with that field's text (booleans as "true"/"false", lists joined with ",") |
| WebConfig.UpdatesComplete | web/routes/api_config.py:101-109 | every field present in the request gives its update |
| WebConfig.PrepararUpdates | web/routes/api_config.py:99-109 | the loop builds the specification `Updates` over the field map |
| WebConfig.ValueOf | web/routes/api_config.py:121-122 | a key has a value exactly when some update names it, and then it is that update's value |
| WebConfig.ValueOfDistinct | web/routes/api_config.py:121-122 | with distinct keys each update's key finds its own value |
| WebConfig.MatchedKeys | web/routes/api_config.py:117-121 | one match, or none, per line of the file, in order |
| WebConfig.KeySetMember | web/routes/api_config.py:123 | the written keys are exactly the keys of the matches |
| WebConfig.WrittenMember | web/routes/api_config.py:117-123 | a key is written exactly when it is updated and some line of the file sets it |
| WebConfig.WrittenSource | web/routes/api_config.py:117-123 | a written key is set by some line of the file and is being updated |
| WebConfig.WrittenFrom | web/routes/api_config.py:117-123 | an updated key set by some line of the file is written |
| WebConfig.Appended | web/routes/api_config.py:128-130 | at most one appended line per update |
| WebConfig.AppendedSource | web/routes/api_config.py:128-130 | every appended line is the line of an update whose key no line set |
| WebConfig.AppendedComplete | web/routes/api_config.py:128-130 | every update whose key no line set is appended |
| WebConfig.RewriteAll | web/routes/api_config.py:117-125 | one output line per line of the file |
| WebConfig.RewriteAllAt | web/routes/api_config.py:117-125 | each output line is its line rewritten with its own match |
| WebConfig.RewrittenShape | web/routes/api_config.py:114-130 | each line of the file is rewritten in place and the appended lines follow them |
| WebConfig.Reescrever | web/routes/api_config.py:114-130 | the two loops build the specification `Rewritten` |
| WebConfig.ReescreverLinhas | web/routes/api_config.py:115-125 | the first loop rewrites every line with its match and collects the matched keys |
| WebConfig.Acrescentar | web/routes/api_config.py:128-130 | the second loop appends the updates whose keys were not written, in order |
| WebConfig.UpdatedKeys | web/routes/api_config.py:135 | `list(updates.keys())`: the keys of the updates in order |
| WebConfig.UpdateConfig | web/routes/api_config.py:87-135 | with no updates nothing is written and no key reported; otherwise the rewritten lines of the old file (none when it is missing) are written and every updated key is reported in field order |
| WebConfig.UniformValue | config.py:178-185 | when every line that sets a key sets the same value, and one does, the loader reads that value |
| WebConfig.RewrittenLineSays | web/routes/api_config.py:117-130 | every line of the new file that sets an updated key sets it to the new value |
| WebConfig.RewrittenLineIs | web/routes/api_config.py:119-122 | a rewritten line that sets an updated key sets it to that key's new value |
| WebConfig.AppendedLine | web/routes/api_config.py:128-130 | a line past the old file's end is the line of some update |
| WebConfig.RewrittenHasLine | web/routes/api_config.py:117-130 | some line of the new file sets each updated key to its new value |
| WebConfig.ReplacedInPlace | web/routes/api_config.py:119-124 | a line that set an updated key now holds that key's new line, at the same place |
| WebConfig.AppendedAtEnd | web/routes/api_config.py:128-130 | an updated key that no line set is among the appended lines |
| WebConfig.UpdatedKeysInLines | web/routes/api_config.py:114-130 | in the new lines every updated key is set to its new value |
| WebConfig.AssignedAgree | config.py:181-185 | two runs of lines that set a key at the same places to the same values read the same for it |
| WebConfig.AssignedIgnores | config.py:181-185 | lines that never set a key leave what the loader reads for it |
| WebConfig.RewrittenLineKeeps | web/routes/api_config.py:117-125 | a line that sets a key not being updated still sets it, to the same value |
| WebConfig.AppendedSilent | web/routes/api_config.py:128-130 | no appended line sets a key that is not being updated |
| WebConfig.HeadReadBack | web/routes/api_config.py:117-125 | the rewritten lines of the old file set a key not being updated as the old file did |
| WebConfig.OtherKeysInLines | web/routes/api_config.py:114-130 | in the new lines a key that was not updated is set exactly as before, or not at all if it was not |
| WebConfig.ParsedAppend | config.py:181-185 | parsing two runs of lines is parsing each |
| WebConfig.ReadLinesFirst | web/routes/api_config.py:96 | `readlines` returns a line ending in its only '\n' whole and goes on after it |
| WebConfig.ReadLinesLast | web/routes/api_config.py:96 | a text with no '\n' is read as one line |
| WebConfig.ReadWritten | web/routes/api_config.py:96-133 | lines of a file, written with `writelines` and read with `readlines`, come back unchanged |
| WebConfig.LineShape | web/routes/api_config.py:122-130 | a written `key=value` line ends in its only '\n' |
| WebConfig.OneLineRead | web/routes/api_config.py:130 | a written setting line is read back as one line |
| WebConfig.EnvOfOne | config.py:181-185 | the settings of a one-line file are what its line sets |
| WebConfig.RewrittenLineShape | web/routes/api_config.py:114-130 | when the new lines can be appended, every line of the new file but the last ends in its only '\n' |
| WebConfig.RewrittenFileLines | web/routes/api_config.py:114-133 | when the new lines can be appended, the new file keeps the shape of a file's lines |
| WebConfig.UpdatedKeysReadBack | web/routes/api_config.py:114-133 | when the old file ends in '\n' or nothing is appended, the settings loader reads every updated key back with its new value, for values without surrounding whitespace or line break (inner spaces included) |
| WebConfig.OtherKeysReadBack | web/routes/api_config.py:114-133 | under the same provisos, the loader reads a key that was not updated exactly as the old file had it |
| WebConfig.GluedReadBack | web/routes/api_config.py:130-133 | a setting line with no '\n' followed by a written line reads back as one line, whose value swallows the new assignment |
| WebConfig.RewrittenOther | web/routes/api_config.py:117-130 | a one-line file that sets another key is rewritten by appending the new line after it |
| WebConfig.PlainLineParses | config.py:182-185 | `k=v` with a plain key and a value without surrounding whitespace sets k to v |
| WebConfig.UnterminatedSettingSwallowed | web/routes/api_config.py:117-133 | as written, updating a key in a file whose only line sets another key and has no '\n' leaves the updated key unset when the file is read back, the old value having swallowed the new line |
| WebConfig.TerminatedFileLines | web/routes/api_config.py:117-125 | ending the last line keeps a file's shape and what every line sets |
| WebConfig.SafeRewriteAgrees | web/routes/api_config.py:114-130 | the corrected rewrite differs from the one as written only on a file whose last line has no '\n' |
| WebConfig.SafeUpdatedKeysReadBack | web/routes/api_config.py:114-133 | with the corrected rewrite every updated key reads back with its new value, whatever the old file's last line, for values without surrounding whitespace or line break (inner spaces included) |
| WebConfig.SafeOtherKeysReadBack | web/routes/api_config.py:114-133 | with the corrected rewrite every key not updated reads back exactly as the old file had it, under the same proviso on the new values |
| WebFrames.Lookup | web/routes/api_data.py:39-42 | the cache hands back a frame exactly when it holds the path with the same stamp, and then it is the stored frame |
| WebFrames.GetThenHit | web/routes/api_data.py:36-48 | right after a `get` that returned a frame, a second `get` at the same stamp hits and returns the same frame, whatever the disk would give |
| WebFrames.StaleRereads | web/routes/api_data.py:37-47 | a changed modification time always rereads, and only that path's entry changes; a reread that raises leaves the cache as it was |
| WebFrames.Invalidated | web/routes/api_data.py:50-55 | a non-empty path drops that entry alone; None or "" drops them all |
| WebFrames.InvalidatedRereads | web/routes/api_data.py:36-55 | after an invalidation covering a path, its next `get` rereads (and fills) whatever the stamp |
| WebFrames.DFCache.constructor | web/routes/api_data.py:32-34 | the cache starts empty |
| WebFrames.DFCache.Get | web/routes/api_data.py:36-48 | the new cache and the result are the specification `AfterGet` of the old cache, the file's stamp (0 when it is missing) and what reading the file gives: a frame read anew is filled with `fillna("")` before it is stored and returned, so a cache of filled frames stays one and every frame returned has no missing cell; when `read_excel` raises, as it must for a path that is not a file, the cache is unchanged and the exception propagates |
| WebFrames.FillNa | web/routes/api_data.py:45 | after `fillna("")` every row holds every column, no cell is missing, and a cell that was not missing is unchanged |
| WebFrames.FillNaIdempotent | web/routes/api_data.py:45 | a filled frame has no missing cell, and filling it again changes nothing |
| WebFrames.FilledEmptyCellFiltered | web/routes/api_data.py:44-45 | a cell `read_excel` left empty reads as "" once filled, so a non-empty header filter never keeps its row |
| WebFrames.GetFilled | web/routes/api_data.py:36-48 | a cache of filled frames stays one through `get`, and the frame handed back is filled |
| WebFrames.MissingFileRaises | web/routes/api_data.py:37-44 | a path that is not a file, and has no entry stamped 0, makes `get` raise and leaves the cache unchanged |
| WebFrames.DFCache.Invalidate | web/routes/api_data.py:50-55 | the new cache is `Invalidated` of the old one, and stays filled when it was |
| WebFrames.Narrow | web/routes/api_data.py:75-78 | a filter never adds rows |
| WebFrames.Narrowed | web/routes/api_data.py:73-78 | the filters in sequence never add rows |
| WebFrames.NarrowedIsConjunction | web/routes/api_data.py:73-78 | the rows kept are exactly those, in order, matching every filter that takes effect (a column of the frame and a non-empty value) |
| WebFrames.LastPage | web/routes/api_data.py:99 | the page count is at least one, its pages hold every row, and with rows present the last page is not empty |
| WebFrames.ClampPage | web/routes/api_data.py:100 | the page lies between 1 and the last page, and a page already in range is kept |
| WebFrames.Window | web/routes/api_data.py:101-103 | a window holds at most `size` rows |
| WebFrames.Paginate | web/routes/api_data.py:61-110 | `total` is the frame's size, `total_filtered` the rows the filters keep, `last_page` their page count, and the data the clamped page's window of those rows |
| WebFrames.PageBounds | web/routes/api_data.py:70-103 | the filtered count never exceeds the total, and the page returned holds at most `size` rows and at least one when any row is left |
| WebFrames.PagesCover | web/routes/api_data.py:99-103 | every filtered row appears on page `i / size + 1` at place `i % size`, and that page exists |
| WebFrames.WindowAt | web/routes/api_data.py:103 | the window's m-th row is the row at start + m |
| WebUpload.BaseName | web/routes/api_data.py:128 | the base name holds no '/', ends the path, and is preceded by a '/' when shorter than the path |
| WebUpload.LastDot | web/routes/api_data.py:128 | the place of the last '.', none exactly when there is no '.' |
| WebUpload.Ext | web/routes/api_data.py:128 | the extension is empty or a '.' followed by no other '.' nor '/', ending the name |
| WebUpload.UpperCaseAccepted | web/routes/api_data.py:128-129 | the extension is lower-cased before the check, so "base.XLS" is accepted |
| WebUpload.HiddenFileRefused | web/routes/api_data.py:128-130 | ".xlsx" is a hidden file with no extension, so it is refused |
| WebUpload.Stripped | web/routes/api_data.py:159-160 | every column name stripped, in order |
| WebUpload.Issues | web/routes/api_data.py:163-167 | one issue, exactly when no column is named like a document nor like a name |
| WebUpload.RenameMap | web/routes/api_data.py:170-176 | the map holds exactly the columns that have a target, each mapped to it |
| WebUpload.Renamed | web/routes/api_data.py:177-178 | one name per column, its target when it has one, itself otherwise |
| WebUpload.RenameOnlyWhenAbsent | web/routes/api_data.py:171-176 | a column is renamed only to a key column the sheet lacks, and only when its name, stripped and lower-cased, is an alias of it |
| WebUpload.RenameWhenAbsent | web/routes/api_data.py:171-176 | an alias of a missing key column is renamed to it |
| WebUpload.AliasesDisjoint | web/routes/api_data.py:173-175 | no name is an alias of both key columns |
| WebUpload.IssueDespiteAlias | web/routes/api_data.py:164-176 | the issue check compares names exactly while the renaming ignores case: a sheet whose only key column is "CPF" is reported as lacking one, and that column still becomes `nr_documento` |
| WebUpload.WithPosition | web/routes/api_data.py:181-182 | without a `posicao` column one is put first, numbering the rows from 1; with one nothing changes |
| WebUpload.Preview | web/routes/api_data.py:192 | the first 50 rows (fewer when the sheet is shorter), cell for cell, with missing cells as "" |
| WebUpload.Replaced | web/routes/api_data.py:830-835 | one output line per line of the file |
| WebUpload.ReplacedAt | web/routes/api_data.py:830-835 | a line whose stripped text starts with `key=` becomes the new line; any other is kept |
| WebUpload.AnySetsWitness | web/routes/api_data.py:828-833 | `found` holds exactly when some line starts with `key=` |
| WebUpload.UpdateEnv | web/routes/api_data.py:819-839 | `_update_env` as written: the lines are `EnvUpdated`, every line setting the key replaced and the new line appended when none did, right after the last line as it stands |
| WebUpload.UnterminatedLineSwallowsKey | web/routes/api_data.py:836-839 | as written, adding a key to a file whose only line has no '\n' reads back as one line whose old key swallowed the new assignment |
| WebUpload.WrittenWhenUnset | web/routes/api_data.py:836-839 | a one-line file that does not set the key is written as that line followed at once by the new line |
| WebUpload.SafeAgrees | web/routes/api_data.py:828-839 | the corrected update differs from the one as written only when a line is appended after a last line with no '\n' |
| WebUpload.SafeKeepsFileLines | web/routes/api_data.py:828-839 | the corrected update keeps the shape of a file's lines |
| WebUpload.ReplacedKeepsFileLines | web/routes/api_data.py:830-835 | replacing lines by written setting lines keeps the shape of a file's lines |
| WebUpload.TerminatedThenLine | web/routes/api_data.py:836-837 | ending the last line and appending a whole line keeps the shape of a file's lines |
| WebUpload.SafeLineSays | web/routes/api_data.py:828-837 | every line of the corrected output that sets the key sets it to the new value |
| WebUpload.KeptLineSays | web/routes/api_data.py:830-835 | a kept or replaced line that sets the key sets it to the new value |
| WebUpload.SafeKeepsParse | web/routes/api_data.py:830-837 | ending the last line with '\n' does not change what it sets |
| WebUpload.SafeHasLine | web/routes/api_data.py:828-837 | the corrected output has a line setting the key to the new value |
| WebUpload.SafeUpdateReadsBack | web/routes/api_data.py:819-839 | after the corrected update the settings loader reads the key back with the new value, whatever the old file's last line, for a value without surrounding whitespace or line break (inner spaces included) |
| WebUpload.Upload | web/routes/api_data.py:121-201 | another extension is refused with its message and no write; an unreadable sheet is reported with the reader's error and no write; otherwise the reply carries the saved name, the row count, the normalised columns, the issues and the preview, and `.env` is updated as written |
| WebUpload.Normalize | web/routes/api_data.py:159-182 | the frame is the normalised sheet and the issues those of its stripped header |
| WebUpload.InputFileKeyPlain | web/routes/api_data.py:190 | INPUT_FILE is a key the settings loader reads back |
| WebUpload.UploadPointsInputFile | web/routes/api_data.py:189-190 | after an upload, INPUT_FILE reads back as the saved copy (inner spaces included), provided the old `.env` ended with '\n' or already set it |
| WebFiles.PathJoin | web/routes/api_data.py:512 | `os.path.join(base, path)` ends with `path`, is `path` itself when that is absolute, and otherwise starts with `base` |
| WebFiles.PathText | web/routes/api_data.py:511-512 | an absolute normalised path is written with a leading '/', and with "//" when `normpath` kept a two-slash root |
| WebFiles.NormalClean | web/routes/api_data.py:511-512 | normalising path components gives segments that are neither empty, "." nor ".." |
| WebFiles.AbsPathClean | web/routes/api_data.py:511-512 | `os.path.abspath` gives clean segments |
| WebFiles.InsideIsPrefix | web/routes/api_data.py:514-516 | the textual form of the intended guard (same text, or the base's text and '/') grants exactly the targets whose segments extend the base's |
| WebFiles.SiblingPassesGuard | web/routes/api_data.py:511-516 | as written, a sibling whose name extends the base's last segment passes the text prefix test though it is not inside the base |
| WebFiles.DoubleRootFailsGuard | web/routes/api_data.py:511-516 | a target with the root "//" fails the text prefix test under a base with the root "/" below the root directory |
| WebFiles.DoubleSlashRequestDenied | web/routes/api_data.py:511-516 | a request path starting with exactly two slashes is denied under such a base, even when it names a file inside it |
| WebFiles.InsidePassesGuard | web/routes/api_data.py:511-516 | whatever lies inside the base also passes the test as written |
| WebFiles.Check | web/routes/api_data.py:507-516 | as written, access is granted exactly when the resolved target's text starts with the base's, so everything inside the base (same root, base's segments a prefix) is granted, and a granted target is the clean absolute path of the request |
| WebFiles.CheckInside | web/routes/api_data.py:507-516 | the corrected check grants exactly the base and what lies below it under the same root, and grants nothing the check as written denies |
| WebDocs.Escape | web/routes/api_data.py:599 | the escaped text holds no '<', '>', '"' nor "'" and is never shorter |
| WebDocs.EscapeIdentity | web/routes/api_data.py:599 | a text with none of the five special characters is escaped as itself |
| WebDocs.LeadingHashes | web/routes/api_data.py:616 | the count of leading '#' characters: all of them '#', and the next one is not |
| WebDocs.OrderedPrefix | web/routes/api_data.py:662-666 | the match of `^\d+\.\s`: at least one digit, then '.', then a whitespace character |
| WebDocs.KindOf | web/routes/api_data.py:589-675 | a line is a fence exactly when it starts with three backquotes, and blank exactly when empty |
| WebDocs.MarkdownToHtml | web/routes/api_data.py:578-684 | the loop over the lines, the final closes and the join with '\n' give the HTML of the specification `Document` |
| WebDocs.StepTracks | web/routes/api_data.py:587-675 | one pass of the loop keeps the number of open code, table and list blocks in step with the three flags |
| WebDocs.RunTracks | web/routes/api_data.py:587-675 | after any lines, the blocks of each kind left open are exactly those the flags record |
| WebDocs.ClosingNet | web/routes/api_data.py:677-682 | the final closes close exactly what the flags say is open |
| WebDocs.DocumentBalanced | web/routes/api_data.py:578-684 | every code, table and list block the output opens, it also closes |
| WebDocs.BlankCloses | web/routes/api_data.py:604-612 | outside a fence a blank line closes an open table and an open list, and nothing else |
| WebDocs.CodeLinesEscaped | web/routes/api_data.py:598-600 | inside a fence any other line is appended escaped, and nothing else changes |
| WebDocs.HeadingLevel | web/routes/api_data.py:615-618 | a heading's level is its number of leading '#', at most 6, and its text the rest stripped |
| WebDocs.SeparatorDropped | web/routes/api_data.py:636-639 | outside a fence a table separator row appends nothing and changes no flag |
| WebDocs.RowCells | web/routes/api_data.py:635-652 | a table row appends one cell per column, as the header with the table opening when no table is open, else as a body row |

## Left out

- Flags.NomeUpper: `str.upper()` and `str.lower()` (Common.UpperChar, Common.LowerChar) are modelled only for the letters of Basic Latin, Latin-1 Supplement and Latin Extended-A, and for U+0192. Multi-character mappings (ß to "SS", İ to "i̇", ŉ to "ʼN") and every other script are left unchanged. A party name with such letters can therefore get a different flag than in the program.
- Flags.FlagRegistry.Avaliar: a party's `polo`, `nome`, `tipoParte` and document `numero` are strings in the model, with absent, null and "" all read as "". In the program an explicit JSON null in one of them makes the flag helpers raise (`None.upper()` at flags.py:76-77 and flags.py:84, `re.sub` on None at flags.py:87). `avaliar_flags` then stores 0 for that flag whatever the other parties hold, while the model evaluates the flag over the remaining parties. The same null makes `is_polo_ativo` and `montar_partes_string` in utils.py raise; that path is not modelled either.
- Flags.EvaluatedValue: its "0 when it raises" case covers a registered function that raises. The raise caused by a null party field in the built-in flags is not modelled (see Flags.FlagRegistry.Avaliar).
- Utils.NormalizeDocument: only the ASCII digits 0-9 count as digits. `re.sub(r"\D", "", ...)` keeps every Unicode decimal digit (Arabic-Indic or full-width digits, for example), so a document written with such digits normalises differently in the program.
- WebConfig.ReadLines: a line ends only at '\n'. Python's text mode also ends a line at a lone '\r' and turns "\r\n" into "\n", so a `.env` file with '\r' line ends reads differently in the program.
- Common.ParseInt: `int()` is modelled for an optional sign followed by ASCII digits, with surrounding whitespace. Python also accepts underscores between digits ("1_000") and non-ASCII decimal digits. Both read as the `ValueError` here. `_int` applied to a float or a bool is not modelled either: every value reaches it as text.
- WebDocs.OrderedPrefix: `\d` of Python's `re` also matches non-ASCII decimal digits. Only ASCII digits are modelled.
- Coleta.ColetaUnificada.ExecutarPorProcessos: the worker threads become one sequential drain of the queue. Locks are no-ops, and the join timeouts and the 120-second wait on the 429 gate are left out. The data of each result is tied to its download only through `BaixarNumero`.
- Coleta.GlobalStats.Snapshot: the `elapsed` entry (`time.time() - inicio`) is not modelled, because the clock is not part of the model. The dashboard printing that uses it is left out too.
- Client.PDPJClient.BuscarDetalheProcesso: the detail file is always written successfully. In the program, a failing `makedirs` or `json.dump` after a 200 answer returns `{}` with `details_ok` already counted, and the worker then records the process as not found. The exception path inside the worker is not modelled either.
- Client.TotalOf: a `totalRegistros` that is present but null reads as 0. In the program, `data.get("totalRegistros", 0)` gives None, and `None > 5000` raises a `TypeError` that escapes the search.
- Client.PDPJClient.Get: sleeps are recorded, not performed. The backoff `backoff_base * 2**attempt` and its random jitter are recorded by attempt number only.
- CacheStore.LoadSet: the set members are kept as distinct JSON values. Python's `set(d)` merges values that compare equal, so a list holding both 1 and true (or 1 and 1.0) loads as one member in the program.
- CacheStore.CacheManager.LogDetalhado: the entry is passed by value. The program writes `info["timestamp"]` into the caller's own dict, which the caller then sees; that aliasing is not modelled.
- CacheStore.CacheManager.SaveAll: every write succeeds. A failing `_save`, whose exception the program prints and swallows, is not modelled.
- Organiza.Projetar: frame columns are a set, so the order of `EXPORT_COLUMNS` in the written sheet is not modelled. The contract states which columns there are and what each holds, not their order.
- Organiza: what `extrair_campos_processo` and `extrair_campos_pagina` make of a process is not modelled. A detail file carries its extracted records, and a page item its extracted record.
- WebFrames.Keeps: `str.contains` is modelled as a plain case-insensitive substring test. pandas treats the filter value as a regular expression by default, so "a.c" also matches "abc", and a malformed pattern such as "(" raises. Neither is modelled.
- WebFrames.Paginate: the sort step of `_paginate_df` (numeric when most values parse, text otherwise) is not modelled. Sorting only reorders the filtered rows, so the counts and the page arithmetic are as stated.
- WebPipeline.SafeSerialize: set members are modelled as strings only. `sorted(obj)` does not recurse into a set's members, so in the program a set of tuples or of numbers with NaN comes out with its tuples or NaN in place. Such sets are not modelled, and `SerializedIsJsonSafe` holds only for values whose sets hold strings.
- Visao.AgregarTodos: requires every export column in the frame, for the reasons given under Visao.Executar.
- Visao.Executar: the value sums and their rounding, the first and last dates, the sort by balance and the Excel output are not modelled (floating point, `datetime` and spreadsheet I/O). The counts, sets, name join and download statistics are modelled. The frame must hold every export column, as step 2 writes it (`Visao.ProjetadoHasStageTwoColumns`). A frame without "Valor Acao" or "Valor Corrigido", for which the program skips every group and returns an empty frame, is not modelled. Nor is one with "Flag Reu" but no "Classe", for which it counts no active-side process.
- Utils: the SELIC lookup and correction, `parse_iso_date` and `calcular_data_ajuizamento` are not part of this model (network, floating point and date parsing).
- WebConfig.UpdatedKeysReadBack: holds only when the old file's last line ends with '\n' or every updated key was already present (`AppendSafe`). Otherwise the appended line is glued to the last one (`UnterminatedSettingSwallowed`). The same proviso applies to WebConfig.OtherKeysReadBack.
- WebUpload.UploadPointsInputFile: holds only when the `.env` file is empty, ends with '\n' or already sets INPUT_FILE. Otherwise the key is swallowed (`UnterminatedLineSwallowsKey`).
- WebUpload: reading the uploaded sheet with pandas and writing the file are I/O. The sheet as read and the result of the write are parameters.
- WebFiles.Check: the `os.path.isfile` test of `download_file`, the directory listing and file sizes of `list_arquivos`, and `download_zip` are left out, because they are file-system I/O. The working directory is a parameter.
- WebDocs.MarkdownToHtml: `_inline` (HTML escaping plus the regular expressions for bold, italics, inline code and links) is a function parameter.
- WebPipeline: the pipeline itself, the thread that runs it, the configuration overrides it applies and the polling and heartbeat timing of the event stream are left out. A run's outcome is a parameter.
- `pipeline.py`, `web/routes/pages.py`, `web/__init__.py` and `web_app.py` (step orchestration, templates and server wiring) are not part of this model.

## Findings

| source | as written | input that shows it | evidently intended | confidence | as-written member | corrected member |
|---|---|---|---|---|---|---|
| s3_visao_devedor.py:42-43 | the entity id is the first 8 characters of "CNPJ Raiz" whenever that has at least 8, and for a CPF person stage 2 stores the 11-digit CPF as the root | a row of a CPF person, CPF "12345678909" | the full CPF, as the docstring says and as the download statistics and the name map key it | not executed | Visao.EntityIdAsWritten, Visao.CpfEntityIdTruncated | Visao.EntityId, Visao.EntityIdMatchesStats |
| s3_visao_devedor.py:58-60, 72-73 | the flags are compared with the integers 0 and 1, but on the pipeline path the frame is read from the sheet with `dtype=str` (lines 263, 270), so every flag cell is text | any frame with the columns "Flag Extinto" and "Flag Reu" read back as text | the active, extinct and active-side counts of the data as written to the sheet | not executed | Visao.ContagensAsWritten, Visao.TextFlagsNeverMatch | Visao.ContagensDe, Visao.ContagensSurviveText |
| web/routes/api_data.py:515 | access is granted when the target's text starts with the base's (also at line 554) | base /srv/out and path "../out_old/x", which resolves to /srv/out_old/x | only the base directory and what lies below it | not executed | WebFiles.Check, WebFiles.SiblingPassesGuard | WebFiles.CheckInside, WebFiles.InsideIsPrefix |
| web/routes/api_data.py:836-839 | `_update_env` appends `key=value\n` after a last line that may lack '\n' | the `.env` lines ["A=1"] and the key INPUT_FILE: the file is read back as A = "1INPUT_FILE=x" and INPUT_FILE unset | the key set to the new value when the file is read back | not executed | WebUpload.UpdateEnv, WebUpload.UnterminatedLineSwallowsKey | WebUpload.EnvUpdatedSafe, WebUpload.SafeUpdateReadsBack |
| web/routes/api_config.py:128-133 | `update_config` appends the new settings after a last line that may lack '\n' | the lines ["FOO=bar"] with PDPJ_TOKENS updated: FOO reads back as "barPDPJ_TOKENS=x" and PDPJ_TOKENS is unset | every updated key set to its new value, every other key unchanged | not executed | WebConfig.UnterminatedSettingSwallowed | WebConfig.RewrittenSafe, WebConfig.SafeUpdatedKeysReadBack |
