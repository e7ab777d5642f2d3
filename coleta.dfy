/**
 * Step 1 of the pipeline, the unified collection (`s1_coleta_unificada.py`):
 * for each person of the input sheet, a search by document, by CNPJ
 * branches and by name feed one pool of processes keyed by number; the
 * pool is split into priority tiers and capped; each selected number is
 * skipped (known missing), marked as already downloaded, or queued for
 * its detail, and the queue is drained by workers that record each
 * outcome in the cache.
 *
 * The worker threads become a sequential drain of the queue; the locks of
 * `GlobalStats` and of the cache are no-ops.
 */
module Coleta {
  import opened Common
  import opened Process
  import opened Utils
  import opened CacheStore
  import opened Client
  import opened Settings

  // ---------------------------------------------------------------------
  // GlobalStats
  // ---------------------------------------------------------------------

  /** An attribute of `GlobalStats`: a counter or a text. */
  datatype Attr = Num(n: int) | Text(s: string)

  /** `getattr(self, k, 0)`: the counter's value, 0 when the attribute does not exist. */
  function Counter(attrs: map<string, Attr>, k: string): int
  {
    if k in attrs && attrs[k].Num? then attrs[k].n else 0
  }

  /** The increment `inc` applies to an attribute: its keyword argument, or 0. */
  function Delta(deltas: map<string, int>, k: string): int
  {
    if k in deltas then deltas[k] else 0
  }

  /** The attributes after `inc(**deltas)`. */
  function Bumped(attrs: map<string, Attr>, deltas: map<string, int>): map<string, Attr>
  {
    map k | k in attrs.Keys + deltas.Keys :: if k in deltas then Num(Counter(attrs, k) + deltas[k]) else attrs[k]
  }

  /** An increment only touches counters (adding a number to a text raises). */
  predicate Addable(attrs: map<string, Attr>, deltas: map<string, int>)
  {
    forall k :: k in deltas && k in attrs ==> attrs[k].Num?
  }

  /**
   * `inc` adds each keyword's value to the counter of that name, a missing
   * attribute counting as 0, creates the attributes it names, and leaves
   * every other attribute as it was.
   */
  lemma BumpedCounters(attrs: map<string, Attr>, deltas: map<string, int>, k: string)
    requires Addable(attrs, deltas)
    ensures Bumped(attrs, deltas).Keys == attrs.Keys + deltas.Keys
    ensures Counter(Bumped(attrs, deltas), k) == Counter(attrs, k) + Delta(deltas, k)
    ensures k !in deltas && k in attrs ==> Bumped(attrs, deltas)[k] == attrs[k]
    ensures Addable(Bumped(attrs, deltas), deltas)
  {
  }

  /**
   * Two increments commute: the counters do not depend on the order in
   * which the workers' `inc` calls take the lock.
   */
  lemma BumpedCommute(attrs: map<string, Attr>, d1: map<string, int>, d2: map<string, int>)
    requires Addable(attrs, d1) && Addable(attrs, d2)
    ensures Addable(Bumped(attrs, d1), d2) && Addable(Bumped(attrs, d2), d1)
    ensures Bumped(Bumped(attrs, d1), d2) == Bumped(Bumped(attrs, d2), d1)
  {
    var a := Bumped(Bumped(attrs, d1), d2);
    var b := Bumped(Bumped(attrs, d2), d1);
    assert a.Keys == b.Keys;
    forall k | k in a.Keys
      ensures a[k] == b[k]
    {
      if k in d1 || k in d2 {
        assert Counter(a, k) == Counter(attrs, k) + Delta(d1, k) + Delta(d2, k);
        assert Counter(b, k) == Counter(attrs, k) + Delta(d2, k) + Delta(d1, k);
      }
    }
  }

  /** The keys of `snapshot` and the attribute each reads (the elapsed time is not modelled). */
  const SnapshotNames: map<string, string> := map[
    "total" := "total_individuos",
    "processados" := "processados",
    "em_andamento" := "em_andamento",
    "processos" := "processos_encontrados",
    "detalhes" := "detalhes_baixados",
    "det_404" := "detalhes_404",
    "det_cache" := "detalhes_cache",
    "erros" := "erros"]

  /** The attributes `__init__` creates. */
  const InitialAttrs: map<string, Attr> := map[
    "total_individuos" := Num(0),
    "processados" := Num(0),
    "em_andamento" := Text(""),
    "processos_encontrados" := Num(0),
    "detalhes_baixados" := Num(0),
    "detalhes_404" := Num(0),
    "detalhes_cache" := Num(0),
    "erros" := Num(0)]

  /** The attributes that are counters. */
  const CounterNames: set<string> := {"total_individuos", "processados", "processos_encontrados",
                                      "detalhes_baixados", "detalhes_404", "detalhes_cache", "erros"}

  /** Every attribute `snapshot` reads exists, and the counters hold numbers. */
  predicate StatsShape(attrs: map<string, Attr>)
  {
    && "em_andamento" in attrs
    && (forall k :: k in CounterNames ==> k in attrs && attrs[k].Num?)
  }

  /** An increment keeps the shape. */
  lemma BumpedShape(attrs: map<string, Attr>, deltas: map<string, int>)
    requires StatsShape(attrs) && Addable(attrs, deltas)
    ensures StatsShape(Bumped(attrs, deltas))
  {
  }

  class GlobalStats {
    var attrs: map<string, Attr>

    /** Every attribute `snapshot` reads exists, and the counters hold numbers. */
    predicate Valid()
      reads this
    {
      StatsShape(attrs)
    }

    constructor ()
      ensures Valid() && attrs == InitialAttrs
    {
      attrs := InitialAttrs;
    }

    /** `inc(**deltas)`, one keyword at a time. */
    method Inc(deltas: map<string, int>)
      requires Addable(attrs, deltas)
      modifies this
      ensures attrs == Bumped(old(attrs), deltas)
      ensures old(Valid()) ==> Valid()
    {
      var todo := deltas.Keys;
      ghost var a0 := attrs;
      while todo != {}
        invariant todo <= deltas.Keys
        invariant PartlyBumped(a0, deltas, todo, attrs)
        decreases |todo|
      {
        var k :| k in todo;
        PartlyBumpedStep(a0, deltas, todo, attrs, k);
        attrs := attrs[k := Num(Counter(attrs, k) + deltas[k])];
        todo := todo - {k};
      }
      PartlyBumpedDone(a0, deltas, attrs);
      if StatsShape(a0) {
        BumpedShape(a0, deltas);
      }
    }

    /** `put(**kw)`: each attribute is overwritten. */
    method Put(kw: map<string, Attr>)
      modifies this
      ensures attrs == old(attrs) + kw
      ensures old(Valid()) && (forall k :: k in kw && k in CounterNames ==> kw[k].Num?) ==> Valid()
    {
      attrs := attrs + kw;
    }

    /** `snapshot`: a fresh map of the counters under their report names. */
    method Snapshot() returns (r: map<string, Attr>)
      requires Valid()
      ensures r.Keys == SnapshotNames.Keys
      ensures forall k :: k in r ==> r[k] == attrs[SnapshotNames[k]]
    {
      assert forall k :: k in SnapshotNames ==> SnapshotNames[k] in CounterNames + {"em_andamento"};
      r := map k | k in SnapshotNames :: attrs[SnapshotNames[k]];
    }
  }

  /** The attributes once every keyword outside `todo` has been applied. */
  predicate PartlyBumped(a0: map<string, Attr>, deltas: map<string, int>, todo: set<string>, attrs: map<string, Attr>)
  {
    && attrs.Keys == a0.Keys + (deltas.Keys - todo)
    && forall k :: k in attrs ==> attrs[k] == if k in deltas && k !in todo then Num(Counter(a0, k) + deltas[k]) else a0[k]
  }

  lemma PartlyBumpedStep(a0: map<string, Attr>, deltas: map<string, int>, todo: set<string>, attrs: map<string, Attr>, k: string)
    requires PartlyBumped(a0, deltas, todo, attrs) && k in todo && todo <= deltas.Keys
    ensures PartlyBumped(a0, deltas, todo - {k}, attrs[k := Num(Counter(attrs, k) + deltas[k])])
  {
    assert Counter(attrs, k) == Counter(a0, k);
  }

  lemma PartlyBumpedDone(a0: map<string, Attr>, deltas: map<string, int>, attrs: map<string, Attr>)
    requires PartlyBumped(a0, deltas, {}, attrs)
    ensures attrs == Bumped(a0, deltas)
  {
    var b := Bumped(a0, deltas);
    assert attrs.Keys == b.Keys;
    forall k | k in attrs
      ensures attrs[k] == b[k]
    {
    }
  }

  /** A single increment of one counter, as every caller in the step issues it. */
  function One(k: string): map<string, int>
  {
    map[k := 1]
  }

  /** Incrementing one counter by one sets it to its old value plus one and changes nothing else. */
  lemma BumpedOne(attrs: map<string, Attr>, k: string)
    ensures Bumped(attrs, One(k)) == attrs[k := Num(Counter(attrs, k) + 1)]
  {
    var b := Bumped(attrs, One(k));
    assert b.Keys == attrs.Keys + {k};
  }

  // ---------------------------------------------------------------------
  // The pool of processes of one person
  // ---------------------------------------------------------------------

  /** `{"item": ..., "origens": set()}`, the origin tags in the order they were added. */
  datatype PoolEntry = PoolEntry(item: Item, origens: seq<string>)

  /** The pool dict: its keys in insertion order, and the entries. */
  datatype Pool = Pool(order: seq<string>, entries: map<string, PoolEntry>)

  /** Keys are unique and numbered, each entry holds an item with its key as number, and tags form a set. */
  predicate PoolWF(p: Pool)
  {
    && Distinct(p.order)
    && (forall n :: n in p.entries ==> n in p.order)
    && (forall n :: n in p.order ==> n in p.entries)
    && (forall n :: n in p.entries ==> n != "" && p.entries[n].item.numero == n && Distinct(p.entries[n].origens))
  }

  const EmptyPool: Pool := Pool([], map[])

  /**
   * One discovered item: `setdefault(numero, {"item": it, "origens": set()})`
   * then `origens.add(tag)`; an item without a number is ignored.
   */
  function Discover(p: Pool, it: Item, tag: string): Pool
  {
    if it.numero == "" then p
    else
      var n := it.numero;
      var e := if n in p.entries then p.entries[n] else PoolEntry(it, []);
      var order := if n in p.entries then p.order else p.order + [n];
      Pool(order, p.entries[n := e.(origens := if tag in e.origens then e.origens else e.origens + [tag])])
  }

  /** The items of one search discovered in order. */
  function DiscoverAll(p: Pool, items: seq<Item>, tag: string): Pool
  {
    if |items| == 0 then p
    else Discover(DiscoverAll(p, items[..|items| - 1], tag), items[|items| - 1], tag)
  }

  /**
   * `q` grows `p`: the key order only gets longer, the item stored for a
   * key is never replaced, and tags are only added.
   */
  predicate Extends(p: Pool, q: Pool)
  {
    && |p.order| <= |q.order| && q.order[..|p.order|] == p.order
    && (forall n :: n in p.entries ==> n in q.entries && q.entries[n].item == p.entries[n].item)
    && (forall n, t :: n in p.entries && t in p.entries[n].origens ==> t in q.entries[n].origens)
  }

  lemma ExtendsTransitive(p: Pool, q: Pool, r: Pool)
    requires Extends(p, q) && Extends(q, r)
    ensures Extends(p, r)
  {
    assert r.order[..|q.order|][..|p.order|] == r.order[..|p.order|];
  }

  lemma ExtendsRefl(p: Pool)
    ensures Extends(p, p)
  {
    assert p.order[..|p.order|] == p.order;
  }

  lemma DiscoverFacts(p: Pool, it: Item, tag: string)
    requires PoolWF(p)
    ensures PoolWF(Discover(p, it, tag)) && Extends(p, Discover(p, it, tag))
  {
    if it.numero != "" {
      var q, n0 := Discover(p, it, tag), it.numero;
      DiscoverKeeps(p, it, tag);
      DiscoverEntry(p, it, tag);
      DiscoverOrder(p, it, tag);
      assert PoolWF(q) by {
        forall n | n in q.entries
          ensures n in q.order && n != "" && q.entries[n].item.numero == n && Distinct(q.entries[n].origens)
        {
          if n != n0 {
            assert q.entries[n] == p.entries[n];
          }
        }
      }
      assert Extends(p, q) by {
        forall n, t | n in p.entries && t in p.entries[n].origens
          ensures t in q.entries[n].origens
        {
          if n != n0 {
            assert q.entries[n] == p.entries[n];
          }
        }
      }
    }
  }

  /** The entries of other numbers are untouched. */
  lemma DiscoverKeeps(p: Pool, it: Item, tag: string)
    requires it.numero != ""
    ensures forall n :: n in p.entries && n != it.numero ==> n in Discover(p, it, tag).entries && Discover(p, it, tag).entries[n] == p.entries[n]
    ensures it.numero in Discover(p, it, tag).entries && (forall n :: n in Discover(p, it, tag).entries ==> n in p.entries || n == it.numero)
  {
  }

  /** The entry of the item's number holds the item met first and the tags so far plus this one, once. */
  lemma DiscoverEntry(p: Pool, it: Item, tag: string)
    requires PoolWF(p) && it.numero != ""
    ensures var n, q := it.numero, Discover(p, it, tag);
            && q.entries[n].item.numero == n && Distinct(q.entries[n].origens)
            && (n in p.entries ==> q.entries[n].item == p.entries[n].item
                                   && forall t :: t in p.entries[n].origens ==> t in q.entries[n].origens)
  {
    var n := it.numero;
    var e := if n in p.entries then p.entries[n] else PoolEntry(it, []);
    assert Discover(p, it, tag).entries[n] == e.(origens := if tag in e.origens then e.origens else e.origens + [tag]);
    if tag !in e.origens {
      DistinctSnoc(e.origens, tag);
    }
  }

  /** The order gains the item's number at its end when the number is new. */
  lemma DiscoverOrder(p: Pool, it: Item, tag: string)
    requires PoolWF(p) && it.numero != ""
    ensures var q := Discover(p, it, tag);
            && Distinct(q.order) && |p.order| <= |q.order| && q.order[..|p.order|] == p.order
            && (forall n :: n in q.order <==> n in p.order || n == it.numero)
  {
    var n := it.numero;
    if n !in p.entries {
      var q := Discover(p, it, tag);
      assert q.order == p.order + [n];
      DistinctSnoc(p.order, n);
      assert q.order[..|p.order|] == p.order;
    }
  }

  lemma DistinctSnoc<T>(xs: seq<T>, x: T)
    requires Distinct(xs) && x !in xs
    ensures Distinct(xs + [x])
  {
  }

  /** The pool stays well formed and grows. */
  lemma {:induction false} DiscoverAllExtends(p: Pool, items: seq<Item>, tag: string)
    requires PoolWF(p)
    ensures PoolWF(DiscoverAll(p, items, tag)) && Extends(p, DiscoverAll(p, items, tag))
  {
    if |items| == 0 {
      assert p.order[..|p.order|] == p.order;
    } else {
      var init := items[..|items| - 1];
      DiscoverAllExtends(p, init, tag);
      DiscoverFacts(DiscoverAll(p, init, tag), items[|items| - 1], tag);
      ExtendsTransitive(p, DiscoverAll(p, init, tag), DiscoverAll(p, items, tag));
    }
  }

  /** The keys afterwards are the old keys and the numbers of the numbered items. */
  lemma {:induction false} DiscoverAllKeys(p: Pool, items: seq<Item>, tag: string, n: string)
    ensures n in DiscoverAll(p, items, tag).entries <==>
              n in p.entries || (n != "" && exists i :: 0 <= i < |items| && items[i].numero == n)
  {
    if |items| > 0 {
      var init := items[..|items| - 1];
      DiscoverAllKeys(p, init, tag, n);
      assert forall i :: 0 <= i < |init| ==> init[i] == items[i];
    }
  }

  /** The only tag a search adds is its own. */
  lemma {:induction false} DiscoverAllOnlyTag(p: Pool, items: seq<Item>, tag: string, n: string, t: string)
    requires PoolWF(p)
    requires n in DiscoverAll(p, items, tag).entries && t in DiscoverAll(p, items, tag).entries[n].origens
    ensures (n in p.entries && t in p.entries[n].origens) || t == tag
  {
    if |items| > 0 {
      var init := items[..|items| - 1];
      var q := DiscoverAll(p, init, tag);
      if t != tag {
        assert n in q.entries && t in q.entries[n].origens;
        DiscoverAllOnlyTag(p, init, tag, n, t);
      }
    }
  }

  /** Every numbered item's entry carries the search's tag. */
  lemma {:induction false} DiscoverAllTagged(p: Pool, items: seq<Item>, tag: string, i: nat)
    requires PoolWF(p)
    requires i < |items| && items[i].numero != ""
    ensures items[i].numero in DiscoverAll(p, items, tag).entries
    ensures tag in DiscoverAll(p, items, tag).entries[items[i].numero].origens
  {
    var init := items[..|items| - 1];
    if i < |items| - 1 {
      DiscoverAllTagged(p, init, tag, i);
      DiscoverAllExtends(p, init, tag);
      DiscoverFacts(DiscoverAll(p, init, tag), items[|items| - 1], tag);
    }
  }

  /** A number new to the pool keeps the first item of the search that has it. */
  lemma {:induction false} DiscoverAllFirst(p: Pool, items: seq<Item>, tag: string, i: nat)
    requires i < |items| && items[i].numero != "" && items[i].numero !in p.entries
    requires forall j :: 0 <= j < i ==> items[j].numero != items[i].numero
    ensures items[i].numero in DiscoverAll(p, items, tag).entries
    ensures DiscoverAll(p, items, tag).entries[items[i].numero].item == items[i]
  {
    var init := items[..|items| - 1];
    if i < |items| - 1 {
      DiscoverAllFirst(p, init, tag, i);
    } else {
      DiscoverAllKeys(p, init, tag, items[i].numero);
    }
  }

  /** The `for it in res["processos"]` loop that feeds the pool. */
  method AddToPool(pool: Pool, items: seq<Item>, tag: string) returns (pool': Pool)
    ensures pool' == DiscoverAll(pool, items, tag)
  {
    pool' := pool;
    var i := 0;
    while i < |items|
      invariant 0 <= i <= |items|
      invariant pool' == DiscoverAll(pool, items[..i], tag)
    {
      assert items[..i + 1][..i] == items[..i];
      pool' := Discover(pool', items[i], tag);
      i := i + 1;
    }
    assert items[..|items|] == items;
  }

  /** `[v["item"] for v in pool.values()]`: the stored items in key order. */
  function PoolItems(p: Pool): (r: seq<Item>)
    requires forall n :: n in p.order ==> n in p.entries
    ensures |r| == |p.order| && forall i :: 0 <= i < |r| ==> r[i] == p.entries[p.order[i]].item
    decreases |p.order|
  {
    if |p.order| == 0 then []
    else PoolItems(Pool(p.order[..|p.order| - 1], p.entries)) + [p.entries[p.order[|p.order| - 1]].item]
  }

  /** In a well-formed pool the stored items have distinct, non-empty numbers. */
  lemma PoolItemsDistinct(p: Pool)
    requires PoolWF(p)
    ensures forall i, j :: 0 <= i < j < |PoolItems(p)| ==> PoolItems(p)[i].numero != PoolItems(p)[j].numero
    ensures forall i :: 0 <= i < |PoolItems(p)| ==> PoolItems(p)[i].numero != ""
  {
  }

  // ---------------------------------------------------------------------
  // Selection
  // ---------------------------------------------------------------------

  /** The length of `xs[:lim]` when the cap is positive, else of the whole list. */
  function CapLen(n: nat, lim: int): (r: nat)
    ensures r <= n && (lim > 0 ==> r <= lim)
    ensures lim <= 0 || lim >= n ==> r == n
  {
    if lim > 0 && lim < n then lim else n
  }

  /** `xs[:lim]` when `lim > 0`, else `xs`. */
  function Capped(xs: seq<string>, lim: int): (r: seq<string>)
    ensures |r| == CapLen(|xs|, lim) && forall i :: 0 <= i < |r| ==> r[i] == xs[i]
  {
    if lim > 0 && lim < |xs| then xs[..lim] else xs
  }

  /**
   * `_aplicar_limites`: each tier cut to `limCat` when that is positive, the
   * tiers concatenated in priority order, and the whole cut to `limRoot`
   * when that is positive. So the result starts with the first execução
   * fiscal numbers, then the first polo-ativo numbers, then the first
   * others, and holds at most `limRoot` numbers.
   */
  function AplicarLimites(ef: seq<string>, pa: seq<string>, ou: seq<string>, limCat: int, limRoot: int): (r: seq<string>)
    ensures var e, p, o := CapLen(|ef|, limCat), CapLen(|pa|, limCat), CapLen(|ou|, limCat);
            && |r| == CapLen(e + p + o, limRoot)
            && forall i :: 0 <= i < |r| ==>
                 r[i] == (if i < e then ef[i] else if i < e + p then pa[i - e] else ou[i - e - p])
  {
    Capped(Capped(ef, limCat) + Capped(pa, limCat) + Capped(ou, limCat), limRoot)
  }

  /** Without caps the selection is every tier, in order. */
  lemma NoCapsSelectsAll(ef: seq<string>, pa: seq<string>, ou: seq<string>)
    ensures AplicarLimites(ef, pa, ou, 0, 0) == ef + pa + ou
  {
    var r := AplicarLimites(ef, pa, ou, 0, 0);
    assert |r| == |ef + pa + ou|;
    forall i | 0 <= i < |r| ensures r[i] == (ef + pa + ou)[i] { }
  }

  predicate Disjoint(a: seq<string>, b: seq<string>)
  {
    forall x :: x in a ==> x !in b
  }

  /**
   * With distinct, pairwise disjoint tiers, the selection has no repeats,
   * keeps tier order (an execução fiscal number never follows another
   * tier's, an other number never precedes a polo-ativo one), and takes at
   * most `limCat` numbers from each tier.
   */
  lemma SelectionShape(ef: seq<string>, pa: seq<string>, ou: seq<string>, limCat: int, limRoot: int)
    requires Distinct(ef) && Distinct(pa) && Distinct(ou)
    requires Disjoint(ef, pa) && Disjoint(ef, ou) && Disjoint(pa, ou)
    ensures var r := AplicarLimites(ef, pa, ou, limCat, limRoot);
            && Distinct(r)
            && (forall i, j :: 0 <= i < j < |r| && r[j] in ef ==> r[i] in ef)
            && (forall i, j :: 0 <= i < j < |r| && r[i] in ou ==> r[j] in ou)
            && (limCat > 0 ==> forall i :: 0 <= i < |r| && r[i] in ef ==> i < limCat)
  {
    var r := AplicarLimites(ef, pa, ou, limCat, limRoot);
    var e, p := CapLen(|ef|, limCat), CapLen(|pa|, limCat);
    assert forall i :: 0 <= i < |r| ==> (i < e ==> r[i] in ef) && (e <= i < e + p ==> r[i] in pa) && (e + p <= i ==> r[i] in ou);
    forall i, j | 0 <= i < j < |r| ensures r[i] != r[j] {
      if j < e || e <= i < j < e + p || e + p <= i {
      } else {
      }
    }
  }

  /** With a positive root cap the selection is the longest prefix the cap allows. */
  lemma RootCapOnlyTruncates(ef: seq<string>, pa: seq<string>, ou: seq<string>, limCat: int, limRoot: int)
    ensures var all := AplicarLimites(ef, pa, ou, limCat, 0);
            var r := AplicarLimites(ef, pa, ou, limCat, limRoot);
            r == all[..|r|] && (|r| < |all| ==> limRoot > 0 && |r| == limRoot)
  {
    var all := AplicarLimites(ef, pa, ou, limCat, 0);
    var r := AplicarLimites(ef, pa, ou, limCat, limRoot);
    assert r == all[..|r|];
  }

  /** `"exec_fiscal"` if the number is in the ef tier, else `"polo_ativo"` if in pa, else `"outros"`. */
  function Prioridade(np: string, ef: seq<string>, pa: seq<string>): string
  {
    if np in ef then "exec_fiscal" else if np in pa then "polo_ativo" else "outros"
  }

  /** One entry of `processos_unicos.json`. */
  datatype Unico = Unico(origens: seq<string>, prioridade: string, detalheBaixado: bool)

  /** The tags of a number in the pool, none when it is absent (`pool.get(np, {})`). */
  function TagsOf(pool: Pool, np: string): seq<string>
  {
    if np in pool.entries then pool.entries[np].origens else []
  }

  /** The entry written for a selected number before any download. */
  function UnicoOf(pool: Pool, np: string, ef: seq<string>, pa: seq<string>): (u: Unico)
    ensures StrictlySorted(u.origens) && (forall t :: t in u.origens <==> t in TagsOf(pool, np))
    ensures !u.detalheBaixado
  {
    Unico(SortedUnique(TagsOf(pool, np)), Prioridade(np, ef, pa), false)
  }

  /** The `unicos` loop: one entry per selected number. */
  method BuildUnicos(sel: seq<string>, pool: Pool, ef: seq<string>, pa: seq<string>) returns (u: map<string, Unico>)
    ensures u.Keys == set np | np in sel
    ensures forall np :: np in u ==> u[np] == UnicoOf(pool, np, ef, pa)
  {
    u := map[];
    var i := 0;
    while i < |sel|
      invariant 0 <= i <= |sel|
      invariant u.Keys == set np | np in sel[..i]
      invariant forall np :: np in u ==> u[np] == UnicoOf(pool, np, ef, pa)
    {
      assert sel[..i + 1] == sel[..i] + [sel[i]];
      u := u[sel[i] := UnicoOf(pool, sel[i], ef, pa)];
      i := i + 1;
    }
    assert sel[..|sel|] == sel;
  }

  // ---------------------------------------------------------------------
  // Detail downloads
  // ---------------------------------------------------------------------

  /** A queued download: the number, the detail file and the searched document. */
  datatype Task = Task(numero: string, path: FileKey, doc: string)

  /** `np.replace("/", "_")`. */
  function Slashless(s: string): (r: string)
    ensures |r| == |s| && '/' !in r
    ensures forall i :: 0 <= i < |s| && s[i] != '/' ==> r[i] == s[i]
  {
    if |s| == 0 then []
    else Slashless(s[..|s| - 1]) + [if s[|s| - 1] == '/' then '_' else s[|s| - 1]]
  }

  /** The detail file of a number in a directory: `<dir>/<np with / as _>.json`. */
  function DetailFile(dir: string, np: string): FileKey
  {
    NamedFile(dir, Slashless(np) + ".json")
  }

  /** Python truthiness of what `buscar_detalhe_processo` returned. */
  predicate Found(b: Body)
  {
    !b.NotJson? && Truthy(b)
  }

  /** What the enqueue loop does with a selected number. */
  datatype Disposition = Skip404 | AlreadyDownloaded | Enqueue

  /** Known missing first, then an existing detail file, else a download. */
  function DispositionOf(np: string, known404: set<JVal>, files: map<FileKey, Body>, detDir: string): Disposition
  {
    if JStr(np) in known404 then Skip404
    else if DetailFile(detDir, np) in files then AlreadyDownloaded
    else Enqueue
  }

  function HasDisposition(known404: set<JVal>, files: map<FileKey, Body>, detDir: string, d: Disposition): string -> bool
  {
    np => DispositionOf(np, known404, files, detDir) == d
  }

  function TaskFor(detDir: string, doc: string): string -> Task
  {
    np => Task(np, DetailFile(detDir, np), doc)
  }

  /** The process cache after `add_processo(np, "ok")` for each number in turn. */
  function MarkOk(m: map<string, JVal>, xs: seq<string>): (r: map<string, JVal>)
  {
    if |xs| == 0 then m else MarkOk(m, xs[..|xs| - 1])[xs[|xs| - 1] := JStr("ok")]
  }

  /** Exactly the listed numbers are set to "ok"; every other entry is kept. */
  lemma {:induction false} MarkOkFacts(m: map<string, JVal>, xs: seq<string>, k: string)
    ensures k in xs ==> k in MarkOk(m, xs) && MarkOk(m, xs)[k] == JStr("ok")
    ensures k !in xs ==> (k in MarkOk(m, xs) <==> k in m) && (k in m ==> MarkOk(m, xs)[k] == m[k])
  {
    if |xs| > 0 {
      MarkOkFacts(m, xs[..|xs| - 1], k);
      assert xs == xs[..|xs| - 1] + [xs[|xs| - 1]];
    }
  }

  /** Every selected number is skipped, found on disk or queued, and exactly one of these. */
  lemma {:induction false} DispositionsPartition(sel: seq<string>, known404: set<JVal>, files: map<FileKey, Body>, detDir: string)
    ensures |Filter(sel, HasDisposition(known404, files, detDir, Skip404))|
          + |Filter(sel, HasDisposition(known404, files, detDir, AlreadyDownloaded))|
          + |Filter(sel, HasDisposition(known404, files, detDir, Enqueue))| == |sel|
  {
    if |sel| > 0 {
      DispositionsPartition(sel[..|sel| - 1], known404, files, detDir);
    }
  }

  /** The number is recorded as found ("ok") or as missing. */
  predicate Settled(c: CacheManager, np: string)
    reads c
  {
    SettledIn(c.processos404, c.cacheProcessos, np)
  }

  predicate SettledIn(known404: set<JVal>, procs: map<string, JVal>, np: string)
  {
    JStr(np) in known404 || (np in procs && procs[np] == JStr("ok"))
  }

  /** The number is not blank once stripped. */
  predicate HasText(s: string)
  {
    Strip(s) != ""
  }

  /** Every listed number is settled. */
  predicate AllSettled(known404: set<JVal>, procs: map<string, JVal>, nums: seq<string>)
  {
    forall j :: 0 <= j < |nums| ==> SettledIn(known404, procs, nums[j])
  }

  /**
   * Settling one more number keeps the others settled: the not-found set
   * only grows, and the process cache only gains an "ok".
   */
  lemma AllSettledStep(p0: set<JVal>, c0: map<string, JVal>, p1: set<JVal>, c1: map<string, JVal>, nums: seq<string>, np: string)
    requires AllSettled(p0, c0, nums)
    requires (p1 == p0 && c1 == c0[np := JStr("ok")]) || (p0 <= p1 && JStr(np) in p1 && c1 == c0)
    ensures AllSettled(p1, c1, nums + [np])
  {
    forall j | 0 <= j < |nums + [np]|
      ensures SettledIn(p1, c1, (nums + [np])[j])
    {
      if j < |nums| {
        assert SettledIn(p0, c0, nums[j]);
      }
    }
  }

  /** The attributes after adding `n` to one counter. */
  function Added(attrs: map<string, Attr>, k: string, n: int): map<string, Attr>
  {
    attrs[k := Num(Counter(attrs, k) + n)]
  }

  // ---------------------------------------------------------------------
  // What is written for a person
  // ---------------------------------------------------------------------

  /** The `por_documento` entry of `buscas`. */
  datatype DocInfo = DocFound(totalApi: int, processos: nat, gigante: bool) | DocErro(erro: string)

  /** One entry of the `por_filial` dict, keyed by branch CNPJ. */
  datatype FilialInfo = FilialQtd(processos: nat) | FilialErro(erro: string)

  /** The `por_nome` entry of `buscas`; the documents found are a set (their listing order is not modelled). */
  datatype NomeInfo = NomeFound(total: int, origensApi: map<string, int>, documentos: set<string>) | NomeErro(erro: string)

  /** The searches that ran, each absent when its gate was closed. */
  datatype Buscas = Buscas(porDocumento: Option<DocInfo>, porFilial: Option<map<string, FilialInfo>>, porNome: Option<NomeInfo>)

  datatype MetaStatus = Blacklisted | Processed(buscas: Buscas, total: nat, ef: nat, pa: nat, ou: nat)

  /** `metadata.json` without its timestamp. */
  datatype Meta = Meta(id: string, nome: string, documento: string, tipo: DocKind, status: MetaStatus)

  /** `row.get(k, default)` on a row whose cells are read as text. */
  function Cell(row: map<string, string>, k: string, default: string): string
  {
    if k in row then row[k] else default
  }

  /** The person's id: `posicao`, else `id`, else the row index, stripped and zero-filled to 6. */
  function IdOf(row: map<string, string>, idx: int): string
  {
    ZFill(Strip(Cell(row, "posicao", Cell(row, "id", IntToString(idx)))), 6)
  }

  function NomeOf(row: map<string, string>): string
  {
    Strip(Cell(row, "nome_estoque", Cell(row, "nome", "")))
  }

  function DocRawOf(row: map<string, string>): string
  {
    Strip(Cell(row, "nr_documento", Cell(row, "documento", "")))
  }

  /** The CNPJ root of a valid CNPJ, "" for anything else. */
  function RaizOf(docRaw: string): string
  {
    if DocumentKind(docRaw) == Cnpj then CnpjRoot(NormalizeDocument(docRaw)) else ""
  }

  /** What `_processar_individuo` reads off one row before searching. */
  datatype Pessoa = Pessoa(id: string, nome: string, doc: string, tipo: DocKind, raiz: string)

  function PessoaOf(row: map<string, string>, idx: int): Pessoa
  {
    var docRaw := DocRawOf(row);
    Pessoa(IdOf(row, idx), NomeOf(row), NormalizeDocument(docRaw), DocumentKind(docRaw), RaizOf(docRaw))
  }

  /** The person is short-circuited when its root or its document is blacklisted. */
  predicate Barrada(cfg: Settings.Config, p: Pessoa)
  {
    p.raiz in cfg.blacklist || p.doc in cfg.blacklist
  }

  /** The branch CNPJ tried for branch number `n`: the root, `n` zero-filled to 4, and check digits. */
  function BranchCnpj(raiz: string, n: int): Option<string>
  {
    GenerateCnpj(raiz, ZFill(IntToString(n), 4))
  }

  /** The branches found empty, as the cache stores them. */
  function EmptyBranches(info: map<string, FilialInfo>): set<JVal>
  {
    set c | c in info && info[c] == FilialQtd(0) :: JStr(c)
  }

  /** `unicos[np]["detalhe_baixado"] = True` for each number in turn. */
  function MarkDownloaded(u: map<string, Unico>, xs: seq<string>): (r: map<string, Unico>)
    ensures r.Keys == u.Keys
  {
    if |xs| == 0 then u
    else
      var m := MarkDownloaded(u, xs[..|xs| - 1]);
      var np := xs[|xs| - 1];
      if np in m then m[np := m[np].(detalheBaixado := true)] else m
  }

  /** Exactly the listed numbers are marked downloaded; nothing else changes. */
  lemma {:induction false} MarkDownloadedFacts(u: map<string, Unico>, xs: seq<string>, np: string)
    requires np in u
    ensures MarkDownloaded(u, xs)[np] == if np in xs then u[np].(detalheBaixado := true) else u[np]
  {
    if |xs| > 0 {
      MarkDownloadedFacts(u, xs[..|xs| - 1], np);
      assert xs == xs[..|xs| - 1] + [xs[|xs| - 1]];
    }
  }

  lemma MarkDownloadedSnoc(u: map<string, Unico>, xs: seq<string>, np: string)
    ensures MarkDownloaded(u, xs + [np]) == MarkDownloaded(MarkDownloaded(u, xs), [np])
  {
    assert (xs + [np])[..|xs|] == xs;
    assert [np][..0] == [];
  }

  lemma MarkOkSnoc(m: map<string, JVal>, xs: seq<string>, np: string)
    ensures MarkOk(m, xs + [np]) == MarkOk(m, xs)[np := JStr("ok")]
  {
    assert (xs + [np])[..|xs|] == xs;
  }

  /** The attribute exists and is a counter. */
  predicate Counts(attrs: map<string, Attr>, k: string)
  {
    k in attrs && attrs[k].Num?
  }

  lemma AddedZero(attrs: map<string, Attr>, k: string)
    requires Counts(attrs, k)
    ensures Added(attrs, k, 0) == attrs
  {
  }

  /** One more count on either counter composes with the running totals. */
  lemma AddedStep(a: map<string, Attr>, n1: int, n2: int)
    ensures Added(Added(Added(a, "detalhes_404", n1), "detalhes_cache", n2), "detalhes_404", 1)
            == Added(Added(a, "detalhes_404", n1 + 1), "detalhes_cache", n2)
    ensures Added(Added(Added(a, "detalhes_404", n1), "detalhes_cache", n2), "detalhes_cache", 1)
            == Added(Added(a, "detalhes_404", n1), "detalhes_cache", n2 + 1)
  {
  }

  /** What the enqueue loop changes: the queue, the stats, the cache's hit counters and process cache, and the person's unique processes. */
  datatype Tally = Tally(queue: seq<Task>, attrs: map<string, Attr>, hits: Hits, procs: map<string, JVal>, unicos: map<string, Unico>)

  /** One pass of the enqueue loop, for the number `np`. */
  function EnqueueOne(t: Tally, np: string, known404: set<JVal>, files: map<FileKey, Body>, detDir: string, doc: string): Tally
  {
    match DispositionOf(np, known404, files, detDir)
    case Skip404 =>
      t.(attrs := Added(t.attrs, "detalhes_404", 1), hits := t.hits.(p404 := t.hits.p404 + 1))
    case AlreadyDownloaded =>
      t.(attrs := Added(t.attrs, "detalhes_cache", 1), procs := t.procs[np := JStr("ok")],
         unicos := MarkDownloaded(t.unicos, [np]))
    case Enqueue =>
      t.(queue := t.queue + [TaskFor(detDir, doc)(np)])
  }

  /** The enqueue loop over the selected numbers. */
  function EnqueueAll(t: Tally, sel: seq<string>, known404: set<JVal>, files: map<FileKey, Body>, detDir: string, doc: string): Tally
  {
    if |sel| == 0 then t
    else EnqueueOne(EnqueueAll(t, sel[..|sel| - 1], known404, files, detDir, doc), sel[|sel| - 1], known404, files, detDir, doc)
  }

  lemma EnqueueAllStep(t: Tally, sel: seq<string>, i: nat, known404: set<JVal>, files: map<FileKey, Body>, detDir: string, doc: string)
    requires i < |sel|
    ensures EnqueueAll(t, sel[..i + 1], known404, files, detDir, doc)
         == EnqueueOne(EnqueueAll(t, sel[..i], known404, files, detDir, doc), sel[i], known404, files, detDir, doc)
  {
    assert sel[..i + 1][..i] == sel[..i];
  }

  /** The queue gets a task for each number that is neither known missing nor on disk, in order. */
  lemma {:induction false} EnqueueAllQueue(t: Tally, sel: seq<string>, known404: set<JVal>, files: map<FileKey, Body>, detDir: string, doc: string)
    ensures EnqueueAll(t, sel, known404, files, detDir, doc).queue
         == t.queue + Keep(sel, HasDisposition(known404, files, detDir, Enqueue), TaskFor(detDir, doc))
  {
    if |sel| > 0 {
      var i := |sel| - 1;
      EnqueueAllQueue(t, sel[..i], known404, files, detDir, doc);
      EnqueueAllStep(t, sel, i, known404, files, detDir, doc);
      assert sel[..i + 1] == sel;
      KeepStep(sel, HasDisposition(known404, files, detDir, Enqueue), TaskFor(detDir, doc), i);
    }
  }

  /** `detalhes_404` and the p404 hits grow by the numbers known missing, `detalhes_cache` by those on disk. */
  lemma EnqueueAllCounts(t: Tally, sel: seq<string>, known404: set<JVal>, files: map<FileKey, Body>, detDir: string, doc: string)
    requires Counts(t.attrs, "detalhes_404") && Counts(t.attrs, "detalhes_cache")
    ensures var k404, kFile := HasDisposition(known404, files, detDir, Skip404),
                              HasDisposition(known404, files, detDir, AlreadyDownloaded);
            && EnqueueAll(t, sel, known404, files, detDir, doc).attrs
               == Added(Added(t.attrs, "detalhes_404", |Filter(sel, k404)|), "detalhes_cache", |Filter(sel, kFile)|)
            && EnqueueAll(t, sel, known404, files, detDir, doc).hits
               == t.hits.(p404 := t.hits.p404 + |Filter(sel, k404)|)
  {
    EnqueueAllAttrs(t, sel, known404, files, detDir, doc);
    EnqueueAllHits(t, sel, known404, files, detDir, doc);
  }

  lemma {:induction false} EnqueueAllAttrs(t: Tally, sel: seq<string>, known404: set<JVal>, files: map<FileKey, Body>, detDir: string, doc: string)
    requires Counts(t.attrs, "detalhes_404") && Counts(t.attrs, "detalhes_cache")
    ensures EnqueueAll(t, sel, known404, files, detDir, doc).attrs == AttrsAfter(t.attrs, sel, known404, files, detDir)
  {
    if |sel| > 0 {
      EnqueueAllAttrs(t, sel[..|sel| - 1], known404, files, detDir, doc);
      AttrsInductiveStep(t, sel, known404, files, detDir, doc);
    } else {
      AddedZero(t.attrs, "detalhes_404");
      AddedZero(t.attrs, "detalhes_cache");
    }
  }

  /** The counters after the enqueue loop: `detalhes_404` up by the numbers known missing, `detalhes_cache` by those on disk. */
  function AttrsAfter(a: map<string, Attr>, sel: seq<string>, known404: set<JVal>, files: map<FileKey, Body>, detDir: string): map<string, Attr>
  {
    Added(Added(a, "detalhes_404", |Filter(sel, HasDisposition(known404, files, detDir, Skip404))|),
          "detalhes_cache", |Filter(sel, HasDisposition(known404, files, detDir, AlreadyDownloaded))|)
  }

  lemma AttrsInductiveStep(t: Tally, sel: seq<string>, known404: set<JVal>, files: map<FileKey, Body>, detDir: string, doc: string)
    requires |sel| > 0
    requires EnqueueAll(t, sel[..|sel| - 1], known404, files, detDir, doc).attrs
             == AttrsAfter(t.attrs, sel[..|sel| - 1], known404, files, detDir)
    ensures EnqueueAll(t, sel, known404, files, detDir, doc).attrs == AttrsAfter(t.attrs, sel, known404, files, detDir)
  {
    var k404, kFile := HasDisposition(known404, files, detDir, Skip404),
                       HasDisposition(known404, files, detDir, AlreadyDownloaded);
    var i := |sel| - 1;
    var prev, n1, n2 := EnqueueAll(t, sel[..i], known404, files, detDir, doc), |Filter(sel[..i], k404)|, |Filter(sel[..i], kFile)|;
    var c1, c2 := |Filter(sel, k404)|, |Filter(sel, kFile)|;
    OneMore(sel, k404);
    OneMore(sel, kFile);
    assert EnqueueAll(t, sel, known404, files, detDir, doc) == EnqueueOne(prev, sel[i], known404, files, detDir, doc);
    AttrsStep(prev, t.attrs, n1, n2, c1, c2, sel[i], known404, files, detDir, doc);
  }

  lemma {:induction false} EnqueueAllHits(t: Tally, sel: seq<string>, known404: set<JVal>, files: map<FileKey, Body>, detDir: string, doc: string)
    ensures EnqueueAll(t, sel, known404, files, detDir, doc).hits
            == t.hits.(p404 := t.hits.p404 + |Filter(sel, HasDisposition(known404, files, detDir, Skip404))|)
  {
    if |sel| > 0 {
      var k404 := HasDisposition(known404, files, detDir, Skip404);
      EnqueueAllHits(t, sel[..|sel| - 1], known404, files, detDir, doc);
      OneMore(sel, k404);
    }
  }

  /** A non-empty sequence has as many elements satisfying `p` as its front, plus one if its last does. */
  lemma OneMore<T>(xs: seq<T>, p: T -> bool)
    requires |xs| > 0
    ensures |Filter(xs, p)| == |Filter(xs[..|xs| - 1], p)| + (if p(xs[|xs| - 1]) then 1 else 0)
  {
  }

  /** One pass of the enqueue loop adds one to the counter of its disposition. */
  lemma AttrsStep(prev: Tally, a: map<string, Attr>, n1: nat, n2: nat, c1: nat, c2: nat,
                  np: string, known404: set<JVal>, files: map<FileKey, Body>, detDir: string, doc: string)
    requires prev.attrs == Added(Added(a, "detalhes_404", n1), "detalhes_cache", n2)
    requires var d := DispositionOf(np, known404, files, detDir);
             c1 == n1 + (if d == Skip404 then 1 else 0) && c2 == n2 + (if d == AlreadyDownloaded then 1 else 0)
    ensures EnqueueOne(prev, np, known404, files, detDir, doc).attrs == Added(Added(a, "detalhes_404", c1), "detalhes_cache", c2)
  {
    AddedStep(a, n1, n2);
  }

  /** Exactly the numbers found on disk are recorded "ok" and marked downloaded, in order. */
  lemma {:induction false} EnqueueAllMarks(t: Tally, sel: seq<string>, known404: set<JVal>, files: map<FileKey, Body>, detDir: string, doc: string)
    ensures var kFile := HasDisposition(known404, files, detDir, AlreadyDownloaded);
            && EnqueueAll(t, sel, known404, files, detDir, doc).procs == MarkOk(t.procs, Filter(sel, kFile))
            && EnqueueAll(t, sel, known404, files, detDir, doc).unicos == MarkDownloaded(t.unicos, Filter(sel, kFile))
  {
    if |sel| > 0 {
      var kFile := HasDisposition(known404, files, detDir, AlreadyDownloaded);
      var i := |sel| - 1;
      EnqueueAllMarks(t, sel[..i], known404, files, detDir, doc);
      var prev, fl := EnqueueAll(t, sel[..i], known404, files, detDir, doc), Filter(sel[..i], kFile);
      EnqueueOneMarks(prev, t.procs, t.unicos, fl, sel[i], known404, files, detDir, doc);
      assert Filter(sel, kFile) == fl + (if DispositionOf(sel[i], known404, files, detDir) == AlreadyDownloaded then [sel[i]] else []);
    }
  }

  /** One pass of the enqueue loop marks its number when, and only when, it is on disk. */
  lemma EnqueueOneMarks(prev: Tally, procs: map<string, JVal>, unicos: map<string, Unico>, fl: seq<string>,
                        np: string, known404: set<JVal>, files: map<FileKey, Body>, detDir: string, doc: string)
    requires prev.procs == MarkOk(procs, fl) && prev.unicos == MarkDownloaded(unicos, fl)
    ensures var d := DispositionOf(np, known404, files, detDir);
            var fl' := fl + (if d == AlreadyDownloaded then [np] else []);
            var r := EnqueueOne(prev, np, known404, files, detDir, doc);
            r.procs == MarkOk(procs, fl') && r.unicos == MarkDownloaded(unicos, fl')
  {
    if DispositionOf(np, known404, files, detDir) == AlreadyDownloaded {
      MarkDownloadedSnoc(unicos, fl, np);
      MarkOkSnoc(procs, fl, np);
    } else {
      assert fl + [] == fl;
    }
  }

  // ---------------------------------------------------------------------
  // Searches
  // ---------------------------------------------------------------------

  /** Where the document search keeps its page checkpoints. */
  function DocPagesDir(indDir: string): string
  {
    PathJoin(PathJoin(indDir, "por_documento"), "pages")
  }

  /** Where the search of one branch CNPJ keeps its page checkpoints. */
  function FilialPagesDir(indDir: string, cnpj: string): string
  {
    PathJoin(PathJoin(PathJoin(indDir, "por_filial"), cnpj), "pages")
  }

  /** The pool tag of the hits of one branch CNPJ. */
  function FilialTag(cnpj: string): string
  {
    "por_filial:" + cnpj
  }

  /** The CNPJs tried for the branch numbers 2 up to `k - 1`, None where the root yields none. */
  function BranchCandidates(raiz: string, k: int): (r: seq<Option<string>>)
    ensures |r| == if k <= 2 then 0 else k - 2
    ensures forall i :: 0 <= i < |r| ==> r[i] == BranchCnpj(raiz, i + 2)
    decreases k
  {
    if k <= 2 then [] else BranchCandidates(raiz, k - 1) + [BranchCnpj(raiz, k - 1)]
  }

  /** What the branch searches share: the client, the configuration, `str(e)` and the person's directory. */
  datatype BranchCtx = BranchCtx(api: PDPJClient, cfg: Settings.Config, describe: PageFailure -> string, indDir: string)

  /** The document search of one branch CNPJ. */
  function BranchSearch(x: BranchCtx, cnpj: string, c: ClientState, files: map<FileKey, Body>): Searched<DocSearch>
    requires |x.api.tokens| > 0
  {
    DocSearchRun(x.api.DocEnv(cnpj, "", FilialPagesDir(x.indDir, cnpj), x.cfg.maxProcessosTotais), x.cfg.maxPaginasPorCaso, c, files)
  }

  /**
   * What the branch loop has touched so far: the client, the files, the
   * branches the cache knows to be empty, the report and the pool.
   */
  datatype Branches = Branches(client: ClientState, files: map<FileKey, Body>, known: set<JVal>,
                               info: map<string, FilialInfo>, pool: Pool)

  /**
   * One pass of the branch loop, for one candidate CNPJ: no CNPJ, or one
   * the cache knows to be empty, is skipped; otherwise the CNPJ is
   * searched, its report is the number of hits or the failure, a search
   * with no hit marks the branch empty, and the hits join the pool.
   */
  function BranchStep(b: Branches, x: BranchCtx, cand: Option<string>): Branches
    requires |x.api.tokens| > 0
  {
    match cand
    case None => b
    case Some(c) =>
      if JStr(c) in b.known then b
      else
        var s := BranchSearch(x, c, b.client, b.files);
        match s.result
        case Raise(f) => Branches(s.client, s.files, b.known, b.info[c := FilialErro(x.describe(f))], b.pool)
        case Done(r) =>
          Branches(s.client, s.files, if |r.processos| == 0 then b.known + {JStr(c)} else b.known,
                   b.info[c := FilialQtd(|r.processos|)], DiscoverAll(b.pool, r.processos, FilialTag(c)))
  }

  /** The branch loop over the candidates in order. */
  function BranchesOver(b: Branches, x: BranchCtx, cands: seq<Option<string>>): Branches
    requires |x.api.tokens| > 0
  {
    if |cands| == 0 then b
    else BranchStep(BranchesOver(b, x, cands[..|cands| - 1]), x, cands[|cands| - 1])
  }

  /** Reported branches and branches known to be empty are never dropped. */
  lemma {:induction false} BranchesGrow(b: Branches, x: BranchCtx, cands: seq<Option<string>>)
    requires |x.api.tokens| > 0
    ensures var e := BranchesOver(b, x, cands);
            b.info.Keys <= e.info.Keys && b.known <= e.known
  {
    if |cands| > 0 {
      BranchesGrow(b, x, cands[..|cands| - 1]);
    }
  }

  /** Reporting a branch adds it to the empty ones exactly when the report is zero hits. */
  lemma EmptyBranchesUpdate(info: map<string, FilialInfo>, c: string, v: FilialInfo)
    ensures EmptyBranches(info[c := v]) == if v == FilialQtd(0) then EmptyBranches(info) + {JStr(c)} else EmptyBranches(info) - {JStr(c)}
  {
    var m := info[c := v];
    forall j | j in EmptyBranches(m)
      ensures j in (if v == FilialQtd(0) then EmptyBranches(info) + {JStr(c)} else EmptyBranches(info) - {JStr(c)})
    {
      var d :| d in m && m[d] == FilialQtd(0) && j == JStr(d);
    }
  }

  /** One pass keeps the empty branches known equal to those known at the start plus those found empty. */
  lemma BranchStepKnown(p: Branches, known0: set<JVal>, x: BranchCtx, cand: Option<string>)
    requires |x.api.tokens| > 0
    requires p.known == known0 + EmptyBranches(p.info)
    ensures var e := BranchStep(p, x, cand);
            e.known == known0 + EmptyBranches(e.info)
  {
    if cand.Some? && JStr(cand.value) !in p.known {
      var c := cand.value;
      var s := BranchSearch(x, c, p.client, p.files);
      match s.result
      case Raise(f) =>
        EmptyBranchesUpdate(p.info, c, FilialErro(x.describe(f)));
      case Done(r) =>
        EmptyBranchesUpdate(p.info, c, FilialQtd(|r.processos|));
    }
  }

  /**
   * After the loop from an empty report, the branches the cache knows to be
   * empty are those it knew before and those the loop found empty.
   */
  lemma {:induction false} BranchesKnown(b: Branches, x: BranchCtx, cands: seq<Option<string>>)
    requires |x.api.tokens| > 0
    requires b.info == map[]
    ensures var e := BranchesOver(b, x, cands);
            e.known == b.known + EmptyBranches(e.info)
  {
    if |cands| == 0 {
      assert EmptyBranches(b.info) == {};
    } else {
      BranchesKnown(b, x, cands[..|cands| - 1]);
      BranchStepKnown(BranchesOver(b, x, cands[..|cands| - 1]), b.known, x, cands[|cands| - 1]);
    }
  }

  /** One pass keeps the pool well formed and grows it. */
  lemma BranchStepPool(p: Branches, x: BranchCtx, cand: Option<string>)
    requires |x.api.tokens| > 0
    requires PoolWF(p.pool)
    ensures PoolWF(BranchStep(p, x, cand).pool) && Extends(p.pool, BranchStep(p, x, cand).pool)
  {
    var q := BranchStep(p, x, cand);
    if cand.Some? && JStr(cand.value) !in p.known && BranchSearch(x, cand.value, p.client, p.files).result.Done? {
      var items := BranchSearch(x, cand.value, p.client, p.files).result.value.processos;
      assert q.pool == DiscoverAll(p.pool, items, FilialTag(cand.value));
      DiscoverAllExtends(p.pool, items, FilialTag(cand.value));
    } else {
      assert q.pool == p.pool;
      ExtendsRefl(p.pool);
    }
  }

  /** The pool stays well formed and only grows. */
  lemma {:induction false} BranchesPool(b: Branches, x: BranchCtx, cands: seq<Option<string>>)
    requires |x.api.tokens| > 0
    requires PoolWF(b.pool)
    ensures PoolWF(BranchesOver(b, x, cands).pool) && Extends(b.pool, BranchesOver(b, x, cands).pool)
  {
    if |cands| == 0 {
      assert b.pool.order[..|b.pool.order|] == b.pool.order;
    } else {
      var p := BranchesOver(b, x, cands[..|cands| - 1]);
      BranchesPool(b, x, cands[..|cands| - 1]);
      BranchStepPool(p, x, cands[|cands| - 1]);
      ExtendsTransitive(b.pool, p.pool, BranchesOver(b, x, cands).pool);
    }
  }

  /**
   * A branch newly reported is one of the candidates, and the cache did not
   * know it to be empty beforehand.
   */
  lemma {:induction false} BranchesSource(b: Branches, x: BranchCtx, cands: seq<Option<string>>, c: string) returns (i: nat)
    requires |x.api.tokens| > 0
    requires c in BranchesOver(b, x, cands).info && c !in b.info
    ensures i < |cands| && cands[i] == Some(c) && JStr(c) !in b.known
  {
    var init := cands[..|cands| - 1];
    var p := BranchesOver(b, x, init);
    if c in p.info {
      i := BranchesSource(b, x, init, c);
    } else {
      i := |cands| - 1;
      BranchesGrow(b, x, init);
    }
  }

  /**
   * After the loop from an empty report, every candidate CNPJ is reported,
   * unless the cache knew it to be empty beforehand.
   */
  lemma {:induction false} BranchesCover(b: Branches, x: BranchCtx, cands: seq<Option<string>>, i: nat)
    requires |x.api.tokens| > 0
    requires b.info == map[]
    requires i < |cands| && cands[i].Some?
    ensures cands[i].value in BranchesOver(b, x, cands).info || JStr(cands[i].value) in b.known
  {
    var c := cands[i].value;
    var init := cands[..|cands| - 1];
    var p := BranchesOver(b, x, init);
    BranchesGrow(p, x, [cands[|cands| - 1]]);
    assert BranchesOver(p, x, [cands[|cands| - 1]]) == BranchesOver(b, x, cands) by {
      assert [cands[|cands| - 1]][..0] == [];
    }
    if i < |cands| - 1 {
      BranchesCover(b, x, init, i);
    } else {
      BranchesKnown(b, x, init);
      if JStr(c) in p.known && JStr(c) !in b.known {
        assert JStr(c) in EmptyBranches(p.info);
      }
    }
  }

  // ---------------------------------------------------------------------
  // One person
  // ---------------------------------------------------------------------

  /** `em_andamento` while a person is processed: the id, a space and the first 25 characters of the name. */
  function Andamento(id: string, nome: string): string
  {
    id + " " + (if |nome| <= 25 then nome else nome[..25])
  }

  /** The priority tiers of the pool's items for the searched document. */
  function TiersOf(pool: Pool, doc: string): (seq<string>, seq<string>, seq<string>)
    requires PoolWF(pool)
  {
    var items := PoolItems(pool);
    (Unique(TierNumbers(items, doc, ExecFiscal)), Unique(TierNumbers(items, doc, PoloAtivo)), Unique(TierNumbers(items, doc, Other)))
  }

  /** The numbers selected for a person: the tiers in priority order, capped. */
  function Selecao(pool: Pool, doc: string, cfg: Settings.Config): seq<string>
    requires PoolWF(pool)
  {
    var t := TiersOf(pool, doc);
    AplicarLimites(t.0, t.1, t.2, cfg.maxProcessosPerDoc, cfg.maxProcessosPerRoot)
  }

  /**
   * The prioritisation of `_processar_individuo`: the pool's items in key
   * order split into tiers, then `_aplicar_limites`.
   */
  method Selecionar(pool: Pool, doc: string, cfg: Settings.Config) returns (sel: seq<string>, ef: seq<string>, pa: seq<string>, ou: seq<string>)
    requires PoolWF(pool)
    ensures (ef, pa, ou) == TiersOf(pool, doc) && sel == Selecao(pool, doc, cfg)
  {
    ef, pa, ou := Prioritize(PoolItems(pool), doc);
    sel := AplicarLimites(ef, pa, ou, cfg.maxProcessosPerDoc, cfg.maxProcessosPerRoot);
  }

  /** `processos_unicos.json` as first written: one entry per selected number. */
  function UnicosOf(sel: seq<string>, pool: Pool, ef: seq<string>, pa: seq<string>): map<string, Unico>
  {
    map np | np in sel :: UnicoOf(pool, np, ef, pa)
  }

  /** An increment of one counter by `n`. */
  lemma BumpedSingle(attrs: map<string, Attr>, k: string, n: int)
    ensures Bumped(attrs, map[k := n]) == Added(attrs, k, n)
  {
    assert Bumped(attrs, map[k := n]).Keys == attrs.Keys + {k};
  }

  /**
   * After the enqueue loop over a selection, the entry of a selected number
   * is as built, marked downloaded exactly when its detail file already
   * existed.
   */
  lemma RegisteredEntry(t0: Tally, sel: seq<string>, known404: set<JVal>, files: map<FileKey, Body>, detDir: string, doc: string,
                        pool: Pool, ef: seq<string>, pa: seq<string>, np: string)
    requires t0.unicos == UnicosOf(sel, pool, ef, pa) && np in sel
    ensures var u := EnqueueAll(t0, sel, known404, files, detDir, doc).unicos;
            np in u && u[np] == UnicoOf(pool, np, ef, pa).(detalheBaixado := DispositionOf(np, known404, files, detDir) == AlreadyDownloaded)
  {
    var kFile := HasDisposition(known404, files, detDir, AlreadyDownloaded);
    EnqueueAllMarks(t0, sel, known404, files, detDir, doc);
    MarkDownloadedFacts(t0.unicos, Filter(sel, kFile), np);
    FilterMember(sel, kFile, np);
  }

  /**
   * After the enqueue loop over a selection, `processos_unicos.json` holds
   * one entry per selected number, each as `RegisteredEntry` states.
   */
  lemma RegisteredUnicos(t0: Tally, sel: seq<string>, known404: set<JVal>, files: map<FileKey, Body>, detDir: string, doc: string,
                         pool: Pool, ef: seq<string>, pa: seq<string>)
    requires t0.unicos == UnicosOf(sel, pool, ef, pa)
    ensures var e := EnqueueAll(t0, sel, known404, files, detDir, doc);
            && (forall np :: np in e.unicos <==> np in sel)
            && (forall np :: np in sel ==>
                  np in e.unicos && e.unicos[np] == UnicoOf(pool, np, ef, pa).(detalheBaixado := DispositionOf(np, known404, files, detDir) == AlreadyDownloaded))
  {
    EnqueueAllMarks(t0, sel, known404, files, detDir, doc);
    assert EnqueueAll(t0, sel, known404, files, detDir, doc).unicos.Keys == t0.unicos.Keys;
    forall np | np in sel
      ensures var u := EnqueueAll(t0, sel, known404, files, detDir, doc).unicos;
              np in u && u[np] == UnicoOf(pool, np, ef, pa).(detalheBaixado := DispositionOf(np, known404, files, detDir) == AlreadyDownloaded)
    {
      RegisteredEntry(t0, sel, known404, files, detDir, doc, pool, ef, pa, np);
    }
  }

  /** Every result is a non-empty download of a number not known missing before, now recorded "ok". */
  predicate ResultsRecorded(res: map<string, Body>, before404: set<JVal>, procs: map<string, JVal>)
  {
    forall p :: p in res ==> Found(res[p]) && JStr(p) !in before404 && p in procs && procs[p] == JStr("ok")
  }

  /** Every number of `ps` that is not now known missing has a result. */
  predicate ResultsCover(res: map<string, Body>, ps: seq<string>, p404: set<JVal>)
  {
    forall p :: p in ps && JStr(p) !in p404 ==> p in res
  }

  /** One number of `executar_por_processos` keeps the results recorded and covering. */
  lemma ResultsStep(res: map<string, Body>, before404: set<JVal>, a404: set<JVal>, aProcs: map<string, JVal>,
                    b404: set<JVal>, bProcs: map<string, JVal>, ps: seq<string>, i: nat, got: Option<Body>)
    requires i < |ps| && before404 <= a404
    requires ResultsRecorded(res, before404, aProcs) && ResultsCover(res, ps[..i], a404)
    requires JStr(ps[i]) in a404 ==> got.None?
    requires got.Some? ==> Found(got.value) && b404 == a404 && bProcs == aProcs[ps[i] := JStr("ok")]
    requires got.None? ==> a404 <= b404 && JStr(ps[i]) in b404 && bProcs == aProcs
    ensures var res' := if got.Some? then res[ps[i] := got.value] else res;
            ResultsRecorded(res', before404, bProcs) && ResultsCover(res', ps[..i + 1], b404)
  {
    assert ps[..i + 1] == ps[..i] + [ps[i]];
  }

  /** The enqueue loop does not touch `processos_encontrados`. */
  lemma RegisteredFound(t0: Tally, sel: seq<string>, known404: set<JVal>, files: map<FileKey, Body>, detDir: string, doc: string)
    requires Counts(t0.attrs, "detalhes_404") && Counts(t0.attrs, "detalhes_cache")
    ensures Counter(EnqueueAll(t0, sel, known404, files, detDir, doc).attrs, "processos_encontrados")
            == Counter(t0.attrs, "processos_encontrados")
  {
    EnqueueAllCounts(t0, sel, known404, files, detDir, doc);
  }

  // ---------------------------------------------------------------------
  // The orchestrator
  // ---------------------------------------------------------------------

  class ColetaUnificada {
    const cfg: Settings.Config
    const api: PDPJClient
    const cache: CacheManager
    const stats: GlobalStats
    /** The output directory tree: page checkpoints and detail files. */
    const disk: Disk
    /** `str(e)` of an exception escaping a search (the message text is not modelled). */
    const describe: PageFailure -> string
    /** The timestamp written into error-log entries. */
    const now: string

    /** The detail queue and its count of tasks not yet marked done. */
    var queue: seq<Task>
    var unfinished: nat
    /** `processos_unicos.json` and `metadata.json` of each person directory. */
    var unicosFiles: map<string, map<string, Unico>>
    var metaFiles: map<string, Meta>

    ghost predicate Valid()
      reads this, api, cache, stats
    {
      api.Valid() && cache.Valid() && stats.Valid() && unfinished == |queue|
    }

    constructor (cfg: Settings.Config, api: PDPJClient, cache: CacheManager, disk: Disk,
                 describe: PageFailure -> string, now: string)
      requires api.Valid() && cache.Valid()
      ensures Valid()
      ensures this.cfg == cfg && this.api == api && this.cache == cache && this.disk == disk
      ensures this.describe == describe && this.now == now && fresh(stats) && stats.attrs == InitialAttrs
      ensures queue == [] && unfinished == 0 && unicosFiles == map[] && metaFiles == map[]
    {
      this.cfg := cfg;
      this.api := api;
      this.cache := cache;
      this.stats := new GlobalStats();
      this.disk := disk;
      this.describe := describe;
      this.now := now;
      queue := [];
      unfinished := 0;
      unicosFiles := map[];
      metaFiles := map[];
    }

    /** A number whose detail file exists: recorded "ok", counted in `detalhes_cache`, marked downloaded. */
    method MarcarBaixado(np: string, unicos: map<string, Unico>) returns (unicos': map<string, Unico>)
      requires cache.Valid() && stats.Valid()
      requires np in unicos
      modifies cache, stats
      ensures cache.Valid() && stats.Valid()
      ensures stats.attrs == Added(old(stats.attrs), "detalhes_cache", 1)
      ensures cache.cacheProcessos == old(cache.cacheProcessos)[np := JStr("ok")] && cache.hits == old(cache.hits)
      ensures unicos' == MarkDownloaded(unicos, [np])
      ensures cache.files == old(cache.files) && cache.processos404 == old(cache.processos404)
      ensures cache.filiaisInexistentes == old(cache.filiaisInexistentes)
      ensures cache.casosGigantes == old(cache.casosGigantes) && cache.selicCache == old(cache.selicCache)
    {
      BumpedOne(stats.attrs, "detalhes_cache");
      stats.Inc(One("detalhes_cache"));
      cache.AddProcesso(np, "ok");
      unicos' := unicos[np := unicos[np].(detalheBaixado := true)];
      assert [np][..0] == [];
    }

    /** One pass of the enqueue loop, for the number `np`. */
    method EnfileirarUm(np: string, detDir: string, doc: string, unicos: map<string, Unico>)
      returns (unicos': map<string, Unico>)
      requires cache.Valid() && stats.Valid()
      requires np in unicos
      modifies this, cache, stats
      ensures cache.Valid() && stats.Valid() && unfinished - |queue| == old(unfinished - |queue|)
      ensures Tally(queue, stats.attrs, cache.hits, cache.cacheProcessos, unicos')
           == EnqueueOne(old(Tally(queue, stats.attrs, cache.hits, cache.cacheProcessos, unicos)), np,
                         old(cache.processos404), disk.files, detDir, doc)
      ensures cache.files == old(cache.files) && cache.processos404 == old(cache.processos404)
      ensures cache.filiaisInexistentes == old(cache.filiaisInexistentes)
      ensures cache.casosGigantes == old(cache.casosGigantes) && cache.selicCache == old(cache.selicCache)
      ensures unicosFiles == old(unicosFiles) && metaFiles == old(metaFiles)
    {
      ghost var t := Tally(queue, stats.attrs, cache.hits, cache.cacheProcessos, unicos);
      ghost var d := DispositionOf(np, cache.processos404, disk.files, detDir);
      unicos' := unicos;
      var hit := cache.IsProcesso404(np);
      if hit {
        assert d == Skip404;
        BumpedOne(stats.attrs, "detalhes_404");
        stats.Inc(One("detalhes_404"));
        assert Tally(queue, stats.attrs, cache.hits, cache.cacheProcessos, unicos')
               == t.(attrs := Added(t.attrs, "detalhes_404", 1), hits := t.hits.(p404 := t.hits.p404 + 1));
      } else {
        var path := DetailFile(detDir, np);
        if disk.IsFile(path) {
          assert d == AlreadyDownloaded;
          unicos' := MarcarBaixado(np, unicos);
          assert Tally(queue, stats.attrs, cache.hits, cache.cacheProcessos, unicos')
                 == t.(attrs := Added(t.attrs, "detalhes_cache", 1), procs := t.procs[np := JStr("ok")],
                       unicos := MarkDownloaded(t.unicos, [np]));
        } else {
          assert d == Enqueue;
          queue := queue + [Task(np, path, doc)];
          unfinished := unfinished + 1;
          assert Tally(queue, stats.attrs, cache.hits, cache.cacheProcessos, unicos')
                 == t.(queue := t.queue + [TaskFor(detDir, doc)(np)]);
        }
      }
    }

    /**
     * The enqueue loop of `_processar_individuo`: a number known missing
     * counts in `detalhes_404`; one whose detail file exists is recorded
     * "ok", counts in `detalhes_cache` and is marked downloaded; any other
     * is queued exactly once.
     */
    method Enfileirar(sel: seq<string>, detDir: string, doc: string, unicos: map<string, Unico>)
      returns (unicos': map<string, Unico>)
      requires cache.Valid() && stats.Valid()
      requires forall np :: np in sel ==> np in unicos
      modifies this, cache, stats
      ensures cache.Valid() && stats.Valid()
      ensures Tally(queue, stats.attrs, cache.hits, cache.cacheProcessos, unicos')
           == EnqueueAll(old(Tally(queue, stats.attrs, cache.hits, cache.cacheProcessos, unicos)), sel,
                         old(cache.processos404), disk.files, detDir, doc)
      ensures unfinished - |queue| == old(unfinished - |queue|)
      ensures cache.files == old(cache.files) && cache.processos404 == old(cache.processos404)
      ensures cache.filiaisInexistentes == old(cache.filiaisInexistentes)
      ensures cache.casosGigantes == old(cache.casosGigantes) && cache.selicCache == old(cache.selicCache)
      ensures unicosFiles == old(unicosFiles) && metaFiles == old(metaFiles)
    {
      ghost var p404 := cache.processos404;
      ghost var t0 := Tally(queue, stats.attrs, cache.hits, cache.cacheProcessos, unicos);
      unicos' := unicos;
      var i := 0;
      while i < |sel|
        invariant 0 <= i <= |sel|
        invariant cache.Valid() && stats.Valid()
        invariant cache.processos404 == p404
        invariant Tally(queue, stats.attrs, cache.hits, cache.cacheProcessos, unicos')
               == EnqueueAll(t0, sel[..i], p404, disk.files, detDir, doc)
        invariant unfinished == old(unfinished) + |queue| - |t0.queue|
        invariant unicos'.Keys == unicos.Keys
        invariant cache.files == old(cache.files) && cache.filiaisInexistentes == old(cache.filiaisInexistentes)
        invariant cache.casosGigantes == old(cache.casosGigantes) && cache.selicCache == old(cache.selicCache)
        invariant unicosFiles == old(unicosFiles) && metaFiles == old(metaFiles)
      {
        EnqueueAllStep(t0, sel, i, p404, disk.files, detDir, doc);
        unicos' := EnfileirarUm(sel[i], detDir, doc, unicos');
        i := i + 1;
      }
      assert sel[..|sel|] == sel;
    }

    /**
     * The body of `_worker` for one task: the detail is downloaded to the
     * task's path; a non-empty result is recorded "ok" and counts in
     * `detalhes_baixados`, an empty one (a 404, any other failure, or a
     * swallowed exception) goes into the not-found set and counts in
     * `detalhes_404`.
     */
    method Trabalhar(t: Task) returns (data: Body)
      requires api.Valid() && cache.Valid() && stats.Valid()
      modifies api, disk, cache, stats
      ensures api.Valid() && cache.Valid() && stats.Valid()
      ensures var d := DetailRun(api.net, api.tokens, api.maxRetries, api.baseUrl + "/" + t.numero,
                                 old(api.State()), old(disk.files), Some(t.path));
              && api.State() == d.client && disk.files == d.files && data == d.data
      ensures Found(data) ==>
                && cache.cacheProcessos == old(cache.cacheProcessos)[t.numero := JStr("ok")]
                && cache.processos404 == old(cache.processos404)
                && stats.attrs == Added(old(stats.attrs), "detalhes_baixados", 1)
      ensures !Found(data) ==>
                && cache.processos404 == old(cache.processos404) + {JStr(t.numero)}
                && cache.cacheProcessos == old(cache.cacheProcessos)
                && stats.attrs == Added(old(stats.attrs), "detalhes_404", 1)
      ensures cache.files == old(cache.files) && cache.hits == old(cache.hits)
      ensures cache.filiaisInexistentes == old(cache.filiaisInexistentes)
      ensures cache.casosGigantes == old(cache.casosGigantes) && cache.selicCache == old(cache.selicCache)
    {
      data := api.BuscarDetalheProcesso(disk, t.numero, Some(t.path));
      if Found(data) {
        cache.AddProcesso(t.numero, "ok");
        BumpedOne(stats.attrs, "detalhes_baixados");
        stats.Inc(One("detalhes_baixados"));
      } else {
        cache.AddProcesso404(t.numero);
        BumpedOne(stats.attrs, "detalhes_404");
        stats.Inc(One("detalhes_404"));
      }
    }

    /**
     * The workers, run one after another until the queue is empty: each
     * task is taken once and marked done once, so `join` returns; every
     * number taken ends up recorded "ok" or not found, and the downloaded
     * and not-found counters together grow by the number of tasks.
     */
    method Drenar() returns (done: seq<string>)
      requires Valid()
      modifies this, api, disk, cache, stats
      ensures Valid()
      ensures queue == [] && unfinished == 0
      ensures |done| == |old(queue)| && forall j :: 0 <= j < |done| ==> done[j] == old(queue)[j].numero
      ensures AllSettled(cache.processos404, cache.cacheProcessos, done)
      ensures Counter(stats.attrs, "detalhes_baixados") + Counter(stats.attrs, "detalhes_404")
              == old(Counter(stats.attrs, "detalhes_baixados") + Counter(stats.attrs, "detalhes_404")) + |done|
      ensures old(cache.processos404) <= cache.processos404
      ensures cache.files == old(cache.files) && cache.hits == old(cache.hits)
      ensures cache.filiaisInexistentes == old(cache.filiaisInexistentes)
      ensures cache.casosGigantes == old(cache.casosGigantes) && cache.selicCache == old(cache.selicCache)
      ensures unicosFiles == old(unicosFiles) && metaFiles == old(metaFiles)
    {
      done := [];
      ghost var total0 := Counter(stats.attrs, "detalhes_baixados") + Counter(stats.attrs, "detalhes_404");
      ghost var p0 := cache.processos404;
      while queue != []
        invariant Valid()
        invariant |done| + |queue| == |old(queue)| && queue == old(queue)[|done|..]
        invariant forall j :: 0 <= j < |done| ==> done[j] == old(queue)[j].numero
        invariant AllSettled(cache.processos404, cache.cacheProcessos, done)
        invariant Counter(stats.attrs, "detalhes_baixados") + Counter(stats.attrs, "detalhes_404") == total0 + |done|
        invariant p0 <= cache.processos404
        invariant cache.files == old(cache.files) && cache.hits == old(cache.hits)
        invariant cache.filiaisInexistentes == old(cache.filiaisInexistentes)
        invariant cache.casosGigantes == old(cache.casosGigantes) && cache.selicCache == old(cache.selicCache)
        invariant unicosFiles == old(unicosFiles) && metaFiles == old(metaFiles)
        decreases |queue|
      {
        ghost var p1, c1 := cache.processos404, cache.cacheProcessos;
        var n := UmaTarefa();
        AllSettledStep(p1, c1, cache.processos404, cache.cacheProcessos, done, n);
        done := done + [n];
      }
    }

    /**
     * One pass of a worker's loop: `q.get()`, the task's work, then
     * `q.task_done()`. The number taken ends up recorded "ok" or not found.
     */
    method UmaTarefa() returns (n: string)
      requires Valid() && queue != []
      modifies this, api, disk, cache, stats
      ensures Valid()
      ensures n == old(queue[0].numero) && queue == old(queue[1..])
      ensures (cache.processos404 == old(cache.processos404) && cache.cacheProcessos == old(cache.cacheProcessos)[n := JStr("ok")])
              || (old(cache.processos404) <= cache.processos404 && JStr(n) in cache.processos404
                  && cache.cacheProcessos == old(cache.cacheProcessos))
      ensures Counter(stats.attrs, "detalhes_baixados") + Counter(stats.attrs, "detalhes_404")
              == old(Counter(stats.attrs, "detalhes_baixados") + Counter(stats.attrs, "detalhes_404")) + 1
      ensures cache.files == old(cache.files) && cache.hits == old(cache.hits)
      ensures cache.filiaisInexistentes == old(cache.filiaisInexistentes)
      ensures cache.casosGigantes == old(cache.casosGigantes) && cache.selicCache == old(cache.selicCache)
      ensures unicosFiles == old(unicosFiles) && metaFiles == old(metaFiles)
    {
      var t := queue[0];
      queue := queue[1..];
      var data := Trabalhar(t);
      unfinished := unfinished - 1;
      n := t.numero;
    }

    /**
     * One non-blank number of `executar_por_processos`: a number known
     * missing is skipped with no request; any other is downloaded to
     * `<saveDir>/<number>.json`, and its data is the result when it is not
     * empty.
     */
    method BaixarNumero(p: string, saveDir: string) returns (got: Option<Body>)
      requires api.Valid() && cache.Valid() && stats.Valid()
      modifies api, disk, cache, stats
      ensures api.Valid() && cache.Valid() && stats.Valid()
      ensures JStr(p) in old(cache.processos404) ==>
                got.None? && api.State() == old(api.State()) && disk.files == old(disk.files)
      ensures JStr(p) !in old(cache.processos404) ==>
                var d := DetailRun(api.net, api.tokens, api.maxRetries, api.baseUrl + "/" + p,
                                   old(api.State()), old(disk.files), Some(DetailFile(saveDir, p)));
                && api.State() == d.client && disk.files == d.files
                && got == if Found(d.data) then Some(d.data) else None
      ensures got.Some? ==> Found(got.value) && cache.processos404 == old(cache.processos404)
                            && cache.cacheProcessos == old(cache.cacheProcessos)[p := JStr("ok")]
      ensures got.None? ==> old(cache.processos404) <= cache.processos404 && JStr(p) in cache.processos404
                            && cache.cacheProcessos == old(cache.cacheProcessos)
      ensures Counter(stats.attrs, "detalhes_baixados") + Counter(stats.attrs, "detalhes_404")
              == old(Counter(stats.attrs, "detalhes_baixados") + Counter(stats.attrs, "detalhes_404")) + 1
    {
      got := None;
      var hit := cache.IsProcesso404(p);
      if hit {
        BumpedOne(stats.attrs, "detalhes_404");
        stats.Inc(One("detalhes_404"));
      } else {
        var data := Trabalhar(Task(p, DetailFile(saveDir, p), ""));
        if Found(data) {
          got := Some(data);
        }
      }
    }

    /**
     * `executar_por_processos`: each number, stripped, is skipped when
     * blank; one known missing counts in `detalhes_404`; any other is
     * downloaded to `<output>/<subdir>/<number>.json` and recorded as the
     * worker does, and a non-empty result is returned under its number.
     * The cache is saved at the end.
     */
    method ExecutarPorProcessos(numeros: seq<string>, subdir: string) returns (resultados: map<string, Body>)
      requires api.Valid() && cache.Valid() && stats.Valid()
      modifies api, disk, cache, stats
      ensures api.Valid() && cache.Valid() && stats.Valid()
      ensures forall p :: p in resultados ==> p in Keep(numeros, HasText, Strip)
      ensures ResultsRecorded(resultados, old(cache.processos404), cache.cacheProcessos)
      ensures ResultsCover(resultados, Keep(numeros, HasText, Strip), cache.processos404)
      ensures AllSettled(cache.processos404, cache.cacheProcessos, Keep(numeros, HasText, Strip))
      ensures Counter(stats.attrs, "detalhes_baixados") + Counter(stats.attrs, "detalhes_404")
              == old(Counter(stats.attrs, "detalhes_baixados") + Counter(stats.attrs, "detalhes_404")) + |Keep(numeros, HasText, Strip)|
      ensures LoadSet(cache.files, Processos404File) == cache.processos404
      ensures LoadDict(cache.files, ProcessosFile) == cache.cacheProcessos
    {
      var saveDir := PathJoin(cfg.outputDir, subdir);
      resultados := BaixarTodos(Keep(numeros, HasText, Strip), saveDir);
      cache.SaveAll();
    }

    /** The loop of `executar_por_processos` over the stripped non-blank numbers. */
    method BaixarTodos(ps: seq<string>, saveDir: string) returns (resultados: map<string, Body>)
      requires api.Valid() && cache.Valid() && stats.Valid()
      modifies api, disk, cache, stats
      ensures api.Valid() && cache.Valid() && stats.Valid()
      ensures forall p :: p in resultados ==> p in ps
      ensures ResultsRecorded(resultados, old(cache.processos404), cache.cacheProcessos)
      ensures ResultsCover(resultados, ps, cache.processos404)
      ensures AllSettled(cache.processos404, cache.cacheProcessos, ps)
      ensures Counter(stats.attrs, "detalhes_baixados") + Counter(stats.attrs, "detalhes_404")
              == old(Counter(stats.attrs, "detalhes_baixados") + Counter(stats.attrs, "detalhes_404")) + |ps|
    {
      resultados := map[];
      ghost var total0 := Counter(stats.attrs, "detalhes_baixados") + Counter(stats.attrs, "detalhes_404");
      var i := 0;
      while i < |ps|
        invariant 0 <= i <= |ps|
        invariant api.Valid() && cache.Valid() && stats.Valid()
        invariant forall p :: p in resultados ==> p in ps
        invariant old(cache.processos404) <= cache.processos404
        invariant ResultsRecorded(resultados, old(cache.processos404), cache.cacheProcessos)
        invariant ResultsCover(resultados, ps[..i], cache.processos404)
        invariant AllSettled(cache.processos404, cache.cacheProcessos, ps[..i])
        invariant Counter(stats.attrs, "detalhes_baixados") + Counter(stats.attrs, "detalhes_404") == total0 + i
      {
        ghost var p1, c1 := cache.processos404, cache.cacheProcessos;
        var got := BaixarNumero(ps[i], saveDir);
        ResultsStep(resultados, old(cache.processos404), p1, c1, cache.processos404, cache.cacheProcessos, ps, i, got);
        if got.Some? {
          resultados := resultados[ps[i] := got.value];
        }
        AllSettledStep(p1, c1, cache.processos404, cache.cacheProcessos, ps[..i], ps[i]);
        assert ps[..i + 1] == ps[..i] + [ps[i]];
        i := i + 1;
      }
      assert ps[..i] == ps;
    }

    /**
     * `_busca_doc`: the document search with checkpoints under
     * `<indDir>/por_documento/pages`. Its numbered hits join the pool
     * tagged "por_documento" and an oversized case is recorded in the
     * cache; a failure that escapes is logged as "busca_doc" and reported
     * instead, leaving the pool as it was.
     */
    method BuscaDoc(documento: string, indDir: string, pool: Pool) returns (info: DocInfo, pool': Pool)
      requires api.Valid() && cache.Valid()
      modifies api, disk, cache
      ensures api.Valid() && cache.Valid()
      ensures PoolWF(pool) ==> PoolWF(pool') && Extends(pool, pool')
      ensures var s := DocSearchRun(api.DocEnv(documento, "", DocPagesDir(indDir), cfg.maxProcessosTotais),
                                    cfg.maxPaginasPorCaso, old(api.State()), old(disk.files));
              && api.State() == s.client && disk.files == s.files
              && (s.result.Raise? ==>
                    && info == DocErro(describe(s.result.failure)) && pool' == pool
                    && cache.files == WithError(old(cache.files), ErrorEntry("", documento, "busca_doc", describe(s.result.failure), now))
                    && cache.casosGigantes == old(cache.casosGigantes))
              && (s.result.Done? ==>
                    && info == DocFound(s.result.value.totalApi, |s.result.value.processos|, s.result.value.gigante)
                    && pool' == DiscoverAll(pool, s.result.value.processos, "por_documento")
                    && cache.files == old(cache.files)
                    && cache.casosGigantes == if s.result.value.gigante
                                              then old(cache.casosGigantes)[documento := JInt(s.result.value.totalApi)]
                                              else old(cache.casosGigantes))
      ensures cache.hits == old(cache.hits) && cache.processos404 == old(cache.processos404)
      ensures cache.filiaisInexistentes == old(cache.filiaisInexistentes)
      ensures cache.cacheProcessos == old(cache.cacheProcessos) && cache.selicCache == old(cache.selicCache)
    {
      var r := api.BuscarPorDocumento(disk, documento, cfg.maxPaginasPorCaso, cfg.maxProcessosTotais, "", DocPagesDir(indDir));
      match r
      case Raise(f) =>
        cache.LogErro("", documento, "busca_doc", describe(f), now);
        info, pool' := DocErro(describe(f)), pool;
      case Done(res) =>
        pool' := AddToPool(pool, res.processos, "por_documento");
        if PoolWF(pool) {
          DiscoverAllExtends(pool, res.processos, "por_documento");
        }
        if res.gigante {
          cache.AddCasoGigante(documento, res.totalApi);
        }
        info := DocFound(res.totalApi, |res.processos|, res.gigante);
    }

    /**
     * `_busca_nome`: the name search with checkpoints under
     * `<indDir>/por_nome`. Its numbered hits join the pool tagged
     * "por_nome" and the report lists the documents found in them; a
     * failure that escapes is logged as "busca_nome" and reported instead.
     */
    method BuscaNome(nome: string, indDir: string, pool: Pool) returns (info: NomeInfo, pool': Pool)
      requires api.Valid() && cache.Valid()
      modifies api, disk, cache
      ensures api.Valid() && cache.Valid()
      ensures PoolWF(pool) ==> PoolWF(pool') && Extends(pool, pool')
      ensures var s := NameSearchRun(api.NameEnv("nomeParte", nome, PathJoin(indDir, "por_nome"), cfg.maxProcessosTotais),
                                     api.NameEnv("outroNomeParte", nome, PathJoin(indDir, "por_nome"), cfg.maxProcessosTotais),
                                     cfg.maxPaginasPorCaso, old(api.State()), old(disk.files));
              && api.State() == s.client && disk.files == s.files
              && (s.result.Raise? ==>
                    && info == NomeErro(describe(s.result.failure)) && pool' == pool
                    && cache.files == WithError(old(cache.files), ErrorEntry("", nome, "busca_nome", describe(s.result.failure), now)))
              && (s.result.Done? ==>
                    && info == NomeFound(s.result.value.total, s.result.value.origens, DocIndex(s.result.value.processos).Keys)
                    && pool' == DiscoverAll(pool, s.result.value.processos, "por_nome")
                    && cache.files == old(cache.files))
      ensures cache.hits == old(cache.hits) && cache.processos404 == old(cache.processos404)
      ensures cache.filiaisInexistentes == old(cache.filiaisInexistentes) && cache.casosGigantes == old(cache.casosGigantes)
      ensures cache.cacheProcessos == old(cache.cacheProcessos) && cache.selicCache == old(cache.selicCache)
    {
      var r := api.BuscarPorNome(disk, nome, cfg.maxPaginasPorCaso, cfg.maxProcessosTotais, PathJoin(indDir, "por_nome"));
      match r
      case Raise(f) =>
        cache.LogErro("", nome, "busca_nome", describe(f), now);
        info, pool' := NomeErro(describe(f)), pool;
      case Done(res) =>
        var docs := ExtractDocuments(res.processos);
        pool' := AddToPool(pool, res.processos, "por_nome");
        if PoolWF(pool) {
          DiscoverAllExtends(pool, res.processos, "por_nome");
        }
        info := NomeFound(res.total, res.origens, docs.Keys);
    }

    /** One pass of the branch loop of `_busca_filiais`, for one candidate CNPJ. */
    method FilialUm(cand: Option<string>, indDir: string, info: map<string, FilialInfo>, pool: Pool)
      returns (info': map<string, FilialInfo>, pool': Pool)
      requires api.Valid() && cache.Valid()
      modifies api, disk, cache
      ensures api.Valid() && cache.Valid()
      ensures Branches(api.State(), disk.files, cache.filiaisInexistentes, info', pool')
              == BranchStep(old(Branches(api.State(), disk.files, cache.filiaisInexistentes, info, pool)),
                            BranchCtx(api, cfg, describe, indDir), cand)
      ensures cache.files == old(cache.files) && cache.hits == old(cache.hits)
      ensures cache.processos404 == old(cache.processos404) && cache.casosGigantes == old(cache.casosGigantes)
      ensures cache.cacheProcessos == old(cache.cacheProcessos) && cache.selicCache == old(cache.selicCache)
    {
      info', pool' := info, pool;
      if cand.None? {
        return;
      }
      var c := cand.value;
      var cached := cache.IsFilialInexistente(c);
      if cached {
        return;
      }
      var r := api.BuscarPorDocumento(disk, c, cfg.maxPaginasPorCaso, cfg.maxProcessosTotais, "", FilialPagesDir(indDir, c));
      match r
      case Raise(f) =>
        info' := info[c := FilialErro(describe(f))];
      case Done(res) =>
        var qtd := |res.processos|;
        info' := info[c := FilialQtd(qtd)];
        if qtd == 0 {
          cache.AddFilialInexistente(c);
        }
        pool' := AddToPool(pool, res.processos, FilialTag(c));
    }

    /**
     * `_busca_filiais`: the branches 0002 up to `maxFiliais + 1` of a CNPJ
     * root, each searched by document unless the root yields no CNPJ for it
     * or the cache knows it to be empty (branch 0001, the head office, is
     * the document search). The cache learns the branches found empty, and
     * the pool only grows.
     */
    method BuscaFiliais(raiz: string, indDir: string, pool: Pool) returns (info: map<string, FilialInfo>, pool': Pool)
      requires api.Valid() && cache.Valid()
      modifies api, disk, cache
      ensures api.Valid() && cache.Valid()
      ensures Branches(api.State(), disk.files, cache.filiaisInexistentes, info, pool')
              == BranchesOver(Branches(old(api.State()), old(disk.files), old(cache.filiaisInexistentes), map[], pool),
                              BranchCtx(api, cfg, describe, indDir), BranchCandidates(raiz, cfg.maxFiliais + 2))
      ensures cache.filiaisInexistentes == old(cache.filiaisInexistentes) + EmptyBranches(info)
      ensures PoolWF(pool) ==> PoolWF(pool') && Extends(pool, pool')
      ensures cache.files == old(cache.files) && cache.hits == old(cache.hits)
      ensures cache.processos404 == old(cache.processos404) && cache.casosGigantes == old(cache.casosGigantes)
      ensures cache.cacheProcessos == old(cache.cacheProcessos) && cache.selicCache == old(cache.selicCache)
    {
      var x := BranchCtx(api, cfg, describe, indDir);
      ghost var b0 := Branches(api.State(), disk.files, cache.filiaisInexistentes, map[], pool);
      ghost var cands := BranchCandidates(raiz, cfg.maxFiliais + 2);
      info, pool' := map[], pool;
      var n := 2;
      while n < cfg.maxFiliais + 2
        invariant 2 <= n && n - 2 <= |cands|
        invariant api.Valid() && cache.Valid()
        invariant Branches(api.State(), disk.files, cache.filiaisInexistentes, info, pool') == BranchesOver(b0, x, cands[..n - 2])
        invariant cache.files == old(cache.files) && cache.hits == old(cache.hits)
        invariant cache.processos404 == old(cache.processos404) && cache.casosGigantes == old(cache.casosGigantes)
        invariant cache.cacheProcessos == old(cache.cacheProcessos) && cache.selicCache == old(cache.selicCache)
      {
        assert cands[..n - 1][..n - 2] == cands[..n - 2];
        info, pool' := FilialUm(BranchCnpj(raiz, n), indDir, info, pool');
        n := n + 1;
      }
      assert cands[..n - 2] == cands;
      BranchesKnown(b0, x, cands);
      if PoolWF(pool) {
        BranchesPool(b0, x, cands);
      }
    }

    /** The document search of `_processar_individuo`, run when enabled and the document is valid. */
    method BuscaDocSe(doc: string, tipo: DocKind, indDir: string, pool: Pool) returns (r: Option<DocInfo>, pool': Pool)
      requires api.Valid() && cache.Valid()
      modifies api, disk, cache
      ensures api.Valid() && cache.Valid()
      ensures PoolWF(pool) ==> PoolWF(pool')
      ensures r.Some? <==> cfg.enableBuscaDocumento && doc != "" && tipo != NoKind
      ensures r.None? ==> pool' == pool && api.State() == old(api.State()) && disk.files == old(disk.files) && cache.files == old(cache.files)
      ensures cache.hits == old(cache.hits) && cache.processos404 == old(cache.processos404)
      ensures cache.filiaisInexistentes == old(cache.filiaisInexistentes)
      ensures cache.cacheProcessos == old(cache.cacheProcessos) && cache.selicCache == old(cache.selicCache)
    {
      r, pool' := None, pool;
      if cfg.enableBuscaDocumento && doc != "" && tipo != NoKind {
        var info;
        info, pool' := BuscaDoc(doc, indDir, pool);
        r := Some(info);
      }
    }

    /** The branch search of `_processar_individuo`, run when enabled and the document is a CNPJ with a root. */
    method BuscaFiliaisSe(tipo: DocKind, raiz: string, indDir: string, pool: Pool)
      returns (r: Option<map<string, FilialInfo>>, pool': Pool)
      requires api.Valid() && cache.Valid()
      modifies api, disk, cache
      ensures api.Valid() && cache.Valid()
      ensures PoolWF(pool) ==> PoolWF(pool')
      ensures r.Some? <==> cfg.enableBuscaFilial && tipo == Cnpj && raiz != ""
      ensures r.None? ==> pool' == pool && api.State() == old(api.State()) && disk.files == old(disk.files)
      ensures old(cache.filiaisInexistentes) <= cache.filiaisInexistentes && cache.files == old(cache.files)
      ensures cache.hits == old(cache.hits) && cache.processos404 == old(cache.processos404)
      ensures cache.cacheProcessos == old(cache.cacheProcessos) && cache.selicCache == old(cache.selicCache)
    {
      r, pool' := None, pool;
      if cfg.enableBuscaFilial && tipo == Cnpj && raiz != "" {
        var info;
        info, pool' := BuscaFiliais(raiz, indDir, pool);
        r := Some(info);
      }
    }

    /** The name search of `_processar_individuo`, run when enabled and the name is not blank. */
    method BuscaNomeSe(nome: string, indDir: string, pool: Pool) returns (r: Option<NomeInfo>, pool': Pool)
      requires api.Valid() && cache.Valid()
      modifies api, disk, cache
      ensures api.Valid() && cache.Valid()
      ensures PoolWF(pool) ==> PoolWF(pool')
      ensures r.Some? <==> cfg.enableBuscaNome && nome != ""
      ensures r.None? ==> pool' == pool && api.State() == old(api.State()) && disk.files == old(disk.files) && cache.files == old(cache.files)
      ensures cache.hits == old(cache.hits) && cache.processos404 == old(cache.processos404)
      ensures cache.filiaisInexistentes == old(cache.filiaisInexistentes)
      ensures cache.cacheProcessos == old(cache.cacheProcessos) && cache.selicCache == old(cache.selicCache)
    {
      r, pool' := None, pool;
      if cfg.enableBuscaNome && nome != "" {
        var info;
        info, pool' := BuscaNome(nome, indDir, pool);
        r := Some(info);
      }
    }

    /**
     * The three searches of `_processar_individuo`, each behind its gate:
     * by document when enabled and the document is valid, by branch when
     * enabled and the document is a CNPJ with a root, by name when enabled
     * and the name is not blank. All feed one pool, which starts empty.
     */
    method Buscar(doc: string, tipo: DocKind, raiz: string, nome: string, indDir: string) returns (buscas: Buscas, pool: Pool)
      requires api.Valid() && cache.Valid()
      modifies api, disk, cache
      ensures api.Valid() && cache.Valid() && PoolWF(pool)
      ensures buscas.porDocumento.Some? <==> cfg.enableBuscaDocumento && doc != "" && tipo != NoKind
      ensures buscas.porFilial.Some? <==> cfg.enableBuscaFilial && tipo == Cnpj && raiz != ""
      ensures buscas.porNome.Some? <==> cfg.enableBuscaNome && nome != ""
      ensures buscas == Buscas(None, None, None) ==>
                pool == EmptyPool && api.State() == old(api.State()) && disk.files == old(disk.files) && cache.files == old(cache.files)
      ensures old(cache.filiaisInexistentes) <= cache.filiaisInexistentes
      ensures cache.hits == old(cache.hits) && cache.processos404 == old(cache.processos404)
      ensures cache.cacheProcessos == old(cache.cacheProcessos) && cache.selicCache == old(cache.selicCache)
    {
      var d, f, n;
      pool := EmptyPool;
      d, pool := BuscaDocSe(doc, tipo, indDir, pool);
      f, pool := BuscaFiliaisSe(tipo, raiz, indDir, pool);
      n, pool := BuscaNomeSe(nome, indDir, pool);
      buscas := Buscas(d, f, n);
    }

    /**
     * The rest of `_processar_individuo` once the selection is made:
     * `processos_encontrados` raised by its size, `processos_unicos.json`
     * written, and, with detail downloads on, the enqueue loop over the
     * selection, after which the file is written again.
     */
    method Registrar(sel: seq<string>, ef: seq<string>, pa: seq<string>, pool: Pool, doc: string, indDir: string)
      returns (unicos: map<string, Unico>)
      requires cache.Valid() && stats.Valid()
      modifies this, cache, stats
      ensures cache.Valid() && stats.Valid() && unfinished - |queue| == old(unfinished - |queue|)
      ensures var t0 := Tally(old(queue), Added(old(stats.attrs), "processos_encontrados", |sel|), old(cache.hits),
                              old(cache.cacheProcessos), UnicosOf(sel, pool, ef, pa));
              Tally(queue, stats.attrs, cache.hits, cache.cacheProcessos, unicos)
              == if cfg.downloadDetalhes then EnqueueAll(t0, sel, old(cache.processos404), disk.files, PathJoin(indDir, "detalhes"), doc)
                 else t0
      ensures unicosFiles == old(unicosFiles)[indDir := unicos] && metaFiles == old(metaFiles)
      ensures cache.files == old(cache.files) && cache.processos404 == old(cache.processos404)
      ensures cache.filiaisInexistentes == old(cache.filiaisInexistentes)
      ensures cache.casosGigantes == old(cache.casosGigantes) && cache.selicCache == old(cache.selicCache)
    {
      BumpedSingle(stats.attrs, "processos_encontrados", |sel|);
      stats.Inc(map["processos_encontrados" := |sel|]);
      unicos := BuildUnicos(sel, pool, ef, pa);
      assert unicos == UnicosOf(sel, pool, ef, pa);
      var written := unicosFiles;
      unicosFiles := written[indDir := unicos];
      if cfg.downloadDetalhes {
        unicos := Enfileirar(sel, PathJoin(indDir, "detalhes"), doc, unicos);
        unicosFiles := written[indDir := unicos];
      }
    }

    /**
     * The part of `_processar_individuo` after the blacklist test: the
     * searches, the selection, `processos_unicos.json` and, with detail
     * downloads on, the enqueue loop; the metadata records the searches
     * that ran and the tier sizes.
     */
    method Pesquisar(p: Pessoa, indDir: string) returns (ghost buscas: Buscas, ghost pool: Pool)
      requires Valid()
      modifies this, api, disk, cache, stats
      ensures Valid() && PoolWF(pool)
      ensures buscas.porDocumento.Some? <==> cfg.enableBuscaDocumento && p.doc != "" && p.tipo != NoKind
      ensures buscas.porFilial.Some? <==> cfg.enableBuscaFilial && p.tipo == Cnpj && p.raiz != ""
      ensures buscas.porNome.Some? <==> cfg.enableBuscaNome && p.nome != ""
      ensures var tiers, sel := TiersOf(pool, p.doc), Selecao(pool, p.doc, cfg);
              var t0 := Tally(old(queue), Added(old(stats.attrs), "processos_encontrados", |sel|),
                              old(cache.hits), old(cache.cacheProcessos), UnicosOf(sel, pool, tiers.0, tiers.1));
              && metaFiles == old(metaFiles)[indDir := Meta(p.id, p.nome, p.doc, p.tipo, Processed(buscas, |sel|, |tiers.0|, |tiers.1|, |tiers.2|))]
              && indDir in unicosFiles && unicosFiles == old(unicosFiles)[indDir := unicosFiles[indDir]]
              && Tally(queue, stats.attrs, cache.hits, cache.cacheProcessos, unicosFiles[indDir])
                 == if cfg.downloadDetalhes then EnqueueAll(t0, sel, cache.processos404, disk.files, PathJoin(indDir, "detalhes"), p.doc)
                    else t0
    {
      var b, q := Buscar(p.doc, p.tipo, p.raiz, p.nome, indDir);
      buscas, pool := b, q;
      assert queue == old(queue) && stats.attrs == old(stats.attrs) && stats.Valid();
      assert unicosFiles == old(unicosFiles) && metaFiles == old(metaFiles);
      var sel, ef, pa, ou := Selecionar(q, p.doc, cfg);
      ghost var known404, files := cache.processos404, disk.files;
      var unicos := Registrar(sel, ef, pa, q, p.doc, indDir);
      assert api.Valid() && cache.processos404 == known404 && disk.files == files;
      assert cache.Valid() && stats.Valid() && unfinished == |queue|;
      metaFiles := metaFiles[indDir := Meta(p.id, p.nome, p.doc, p.tipo, Processed(b, |sel|, |ef|, |pa|, |ou|))];
      assert Valid();
    }

    /**
     * `_processar_individuo` for the person `p` read off a row (see
     * `PessoaOf`): `em_andamento` set; a blacklisted person gets only a
     * "blacklist" metadata file in their directory; anyone else goes through
     * `Pesquisar` from the updated statistics. The reports of the searches
     * and the pool are returned for the contract.
     */
    method ProcessarIndividuo(p: Pessoa) returns (ghost buscas: Buscas, ghost pool: Pool)
      requires Valid()
      modifies this, api, disk, cache, stats
      ensures Valid()
      ensures Barrada(cfg, p) ==>
                && metaFiles == old(metaFiles)[PathJoin(cfg.outputDir, p.id) := Meta(p.id, p.nome, p.doc, p.tipo, Blacklisted)]
                && unicosFiles == old(unicosFiles) && queue == old(queue)
                && stats.attrs == old(stats.attrs)["em_andamento" := Text(Andamento(p.id, p.nome))]
                && api.State() == old(api.State()) && disk.files == old(disk.files) && cache.files == old(cache.files)
      ensures !Barrada(cfg, p) ==>
                && PoolWF(pool)
                && (buscas.porDocumento.Some? <==> cfg.enableBuscaDocumento && p.doc != "" && p.tipo != NoKind)
                && (buscas.porFilial.Some? <==> cfg.enableBuscaFilial && p.tipo == Cnpj && p.raiz != "")
                && (buscas.porNome.Some? <==> cfg.enableBuscaNome && p.nome != "")
      ensures var indDir := PathJoin(cfg.outputDir, p.id);
              !Barrada(cfg, p) && PoolWF(pool) ==>
                var tiers, sel := TiersOf(pool, p.doc), Selecao(pool, p.doc, cfg);
                var t0 := Tally(old(queue), Added(old(stats.attrs)["em_andamento" := Text(Andamento(p.id, p.nome))], "processos_encontrados", |sel|),
                                old(cache.hits), old(cache.cacheProcessos), UnicosOf(sel, pool, tiers.0, tiers.1));
                && metaFiles == old(metaFiles)[indDir := Meta(p.id, p.nome, p.doc, p.tipo, Processed(buscas, |sel|, |tiers.0|, |tiers.1|, |tiers.2|))]
                && indDir in unicosFiles && unicosFiles == old(unicosFiles)[indDir := unicosFiles[indDir]]
                && Tally(queue, stats.attrs, cache.hits, cache.cacheProcessos, unicosFiles[indDir])
                   == if cfg.downloadDetalhes then EnqueueAll(t0, sel, cache.processos404, disk.files, PathJoin(indDir, "detalhes"), p.doc)
                      else t0
    {
      stats.Put(map["em_andamento" := Text(Andamento(p.id, p.nome))]);
      assert stats.Valid();
      assert stats.attrs == old(stats.attrs)["em_andamento" := Text(Andamento(p.id, p.nome))];
      var indDir := PathJoin(cfg.outputDir, p.id);
      if Barrada(cfg, p) {
        metaFiles := metaFiles[indDir := Meta(p.id, p.nome, p.doc, p.tipo, Blacklisted)];
        buscas, pool := Buscas(None, None, None), EmptyPool;
        return;
      }
      buscas, pool := Pesquisar(p, indDir);
    }
  }
}
