/**
 * The model catalog merge of get_all_models (backend/open_webui/routers/mcp.py),
 * stated on values. The catalog maps a model key to the formatted model
 * first stored under it and the endpoint indices that advertise it. A
 * refresh walks the endpoints in index order and, within each, the models in
 * the remote's order; the flat listing keeps every model of every endpoint
 * that did not fail.
 *
 * The class McpRouter.McpState runs the same merge on objects and is proved
 * to follow these functions. The lemmas at the end characterise the result
 * of a refresh independently of the step-by-step merge.
 */
module McpCatalog {
  import opened Wrappers
  import opened PyJson
  import opened McpPlugin

  /** What a catalog entry holds: the formatted model and its endpoint indices (`urls`). */
  datatype Entry = Entry(model: Model, urls: seq<nat>)

  type CatalogView = map<Key, Entry>

  predicate NoDuplicates(s: seq<nat>)
  {
    forall i, j :: 0 <= i < j < |s| ==> s[i] != s[j]
  }

  /** Every entry sits under its own id, has at least one index and no index twice. */
  predicate WellFormed(cat: CatalogView)
  {
    forall k :: k in cat ==> KeyOf(cat[k].model.id) == Some(k) && cat[k].urls != [] && NoDuplicates(cat[k].urls)
  }

  /** `if idx not in urls: urls.append(idx)` */
  function AddIndex(urls: seq<nat>, idx: nat): seq<nat>
  {
    if idx in urls then urls else urls + [idx]
  }

  /** The indices under a key, [] for a key not in the catalog. */
  function UrlsOf(cat: CatalogView, k: Key): seq<nat>
  {
    if k in cat then cat[k].urls else []
  }

  /**
   * One element of the flat listing: the model, the endpoint it came from,
   * and whether it is the very object stored in the catalog under its id
   * (`owner`). An owner shows the catalog's urls, which later endpoints may
   * extend; any other element keeps `[endpoint]`.
   */
  datatype FlatItem = FlatItem(model: Model, endpoint: nat, owner: bool)

  /** The merge of one endpoint's models in progress; `aborted` once a model id is unhashable. */
  datatype MergeState = MergeState(cat: CatalogView, pending: seq<FlatItem>, aborted: bool)

  /** The loop body of mcp.py:142-154 for one model of endpoint `idx`. */
  function MergeModel(s: MergeState, idx: nat, m: Model): MergeState
  {
    if s.aborted then s
    else match KeyOf(m.id)
      case None => s.(aborted := true)
      case Some(k) =>
        if k !in s.cat then MergeState(s.cat[k := Entry(m, [idx])], s.pending + [FlatItem(m, idx, true)], false)
        else MergeState(s.cat[k := s.cat[k].(urls := AddIndex(s.cat[k].urls, idx))], s.pending + [FlatItem(m, idx, false)], false)
  }

  function MergeModels(s: MergeState, idx: nat, ms: seq<Model>): MergeState
  {
    if ms == [] then s else MergeModel(MergeModels(s, idx, ms[..|ms| - 1]), idx, ms[|ms| - 1])
  }

  /** What one endpoint yields: skipped (its settings could not be read) or its formatted models. */
  datatype Outcome = Skipped | Listed(models: seq<Model>)

  datatype Refresh = Refresh(cat: CatalogView, flat: seq<FlatItem>)

  /** One iteration of the endpoint loop: an aborted merge keeps its catalog updates but adds nothing to the flat listing. */
  function MergeEndpoint(r: Refresh, idx: nat, o: Outcome): Refresh
  {
    match o
    case Skipped => r
    case Listed(ms) =>
      var s := MergeModels(MergeState(r.cat, [], false), idx, ms);
      Refresh(s.cat, if s.aborted then r.flat else r.flat + s.pending)
  }

  /** The endpoint loop; the outcome at position i belongs to endpoint i. */
  function MergeAll(r: Refresh, os: seq<Outcome>): Refresh
  {
    if os == [] then r else MergeEndpoint(MergeAll(r, os[..|os| - 1]), |os| - 1, os[|os| - 1])
  }

  // ---------------------------------------------------------------------
  // Reference definitions of what a refresh computes

  /** Whether the merge of `ms` meets an unhashable id. */
  function Aborts(ms: seq<Model>): bool
  {
    if ms == [] then false else Aborts(ms[..|ms| - 1]) || KeyOf(ms[|ms| - 1].id).None?
  }

  /** The keys of the models merged before any unhashable id. */
  function ProcessedKeys(ms: seq<Model>): set<Key>
  {
    if ms == [] then {}
    else if Aborts(ms[..|ms| - 1]) then ProcessedKeys(ms[..|ms| - 1])
    else match KeyOf(ms[|ms| - 1].id)
      case None => ProcessedKeys(ms[..|ms| - 1])
      case Some(k) => ProcessedKeys(ms[..|ms| - 1]) + {k}
  }

  /** The first model merged under key k, if any. */
  function FirstWith(ms: seq<Model>, k: Key): Option<Model>
  {
    if ms == [] then None
    else if FirstWith(ms[..|ms| - 1], k).Some? then FirstWith(ms[..|ms| - 1], k)
    else if !Aborts(ms[..|ms| - 1]) && KeyOf(ms[|ms| - 1].id) == Some(k) then Some(ms[|ms| - 1])
    else None
  }

  /** The endpoints, in index order, that merged a model under key k. */
  function ListedBy(os: seq<Outcome>, k: Key): seq<nat>
  {
    if os == [] then []
    else ListedBy(os[..|os| - 1], k)
         + (if os[|os| - 1].Listed? && k in ProcessedKeys(os[|os| - 1].models) then [|os| - 1] else [])
  }

  /** The first model merged under key k across all endpoints, if any. */
  function FirstListed(os: seq<Outcome>, k: Key): Option<Model>
  {
    if os == [] then None
    else if FirstListed(os[..|os| - 1], k).Some? then FirstListed(os[..|os| - 1], k)
    else if os[|os| - 1].Listed? then FirstWith(os[|os| - 1].models, k)
    else None
  }

  /** Folds AddIndex over a list of indices. */
  function AddIndices(urls: seq<nat>, idxs: seq<nat>): seq<nat>
  {
    if idxs == [] then urls else AddIndex(AddIndices(urls, idxs[..|idxs| - 1]), idxs[|idxs| - 1])
  }

  /** A model with the endpoint it came from. */
  datatype Sourced = Sourced(model: Model, endpoint: nat)

  function Strip(items: seq<FlatItem>): seq<Sourced>
  {
    if items == [] then [] else Strip(items[..|items| - 1]) + [Sourced(items[|items| - 1].model, items[|items| - 1].endpoint)]
  }

  function Tag(ms: seq<Model>, idx: nat): seq<Sourced>
  {
    if ms == [] then [] else Tag(ms[..|ms| - 1], idx) + [Sourced(ms[|ms| - 1], idx)]
  }

  /** The flat listing's reference: each endpoint whose merge did not abort, in order, with its models in order. */
  function Contributions(os: seq<Outcome>): seq<Sourced>
  {
    if os == [] then []
    else
      var o := os[|os| - 1];
      Contributions(os[..|os| - 1]) + (if o.Listed? && !Aborts(o.models) then Tag(o.models, |os| - 1) else [])
  }

  /** Every owner in the flat listing is the catalog entry for its id. */
  predicate OwnersResolve(cat: CatalogView, items: seq<FlatItem>)
  {
    forall i :: 0 <= i < |items| && items[i].owner ==>
      KeyOf(items[i].model.id).Some? && KeyOf(items[i].model.id).value in cat
      && cat[KeyOf(items[i].model.id).value].model == items[i].model
  }

  /** The flat listing as returned: an owner shows the catalog entry, any other element `[endpoint]`. */
  function Observe(cat: CatalogView, items: seq<FlatItem>): (r: seq<Entry>)
    requires OwnersResolve(cat, items)
    ensures |r| == |items|
    ensures forall i :: 0 <= i < |items| ==> r[i].model == items[i].model
  {
    seq(|items|, i requires 0 <= i < |items| =>
      if items[i].owner then cat[KeyOf(items[i].model.id).value]
      else Entry(items[i].model, [items[i].endpoint]))
  }

  // ---------------------------------------------------------------------
  // The merge of one endpoint

  lemma {:induction false} MergeModelsAborts(s: MergeState, idx: nat, ms: seq<Model>)
    requires !s.aborted
    ensures MergeModels(s, idx, ms).aborted == Aborts(ms)
  {
    if ms != [] {
      MergeModelsAborts(s, idx, ms[..|ms| - 1]);
    }
  }

  lemma {:induction false} MergeModelsUrls(s: MergeState, idx: nat, ms: seq<Model>, k: Key)
    requires !s.aborted
    ensures UrlsOf(MergeModels(s, idx, ms).cat, k) ==
      if k in ProcessedKeys(ms) then AddIndex(UrlsOf(s.cat, k), idx) else UrlsOf(s.cat, k)
  {
    if ms != [] {
      var init := ms[..|ms| - 1];
      MergeModelsUrls(s, idx, init, k);
      MergeModelsAborts(s, idx, init);
    }
  }

  lemma {:induction false} MergeModelsKeys(s: MergeState, idx: nat, ms: seq<Model>)
    requires !s.aborted
    ensures MergeModels(s, idx, ms).cat.Keys == s.cat.Keys + ProcessedKeys(ms)
  {
    if ms != [] {
      var init := ms[..|ms| - 1];
      MergeModelsKeys(s, idx, init);
      MergeModelsAborts(s, idx, init);
    }
  }

  lemma {:induction false} FirstWithProcessed(ms: seq<Model>, k: Key)
    ensures FirstWith(ms, k).Some? <==> k in ProcessedKeys(ms)
    ensures FirstWith(ms, k).Some? ==> KeyOf(FirstWith(ms, k).value.id) == Some(k)
  {
    if ms != [] {
      FirstWithProcessed(ms[..|ms| - 1], k);
    }
  }

  lemma {:induction false} MergeModelsModel(s: MergeState, idx: nat, ms: seq<Model>, k: Key)
    requires !s.aborted
    requires k in MergeModels(s, idx, ms).cat
    ensures k !in s.cat ==> FirstWith(ms, k).Some?
    ensures MergeModels(s, idx, ms).cat[k].model == if k in s.cat then s.cat[k].model else FirstWith(ms, k).value
  {
    MergeModelsKeys(s, idx, ms);
    FirstWithProcessed(ms, k);
    if ms != [] {
      var init := ms[..|ms| - 1];
      MergeModelsAborts(s, idx, init);
      MergeModelsKeys(s, idx, init);
      FirstWithProcessed(init, k);
      if k in MergeModels(s, idx, init).cat {
        MergeModelsModel(s, idx, init, k);
      }
    }
  }

  lemma {:induction false} StripAppend(items: seq<FlatItem>, more: seq<FlatItem>)
    ensures Strip(items + more) == Strip(items) + Strip(more)
  {
    if more != [] {
      assert (items + more)[..|items + more| - 1] == items + more[..|more| - 1];
      StripAppend(items, more[..|more| - 1]);
    } else {
      assert items + more == items;
    }
  }

  lemma {:induction false} MergeModelsPending(s: MergeState, idx: nat, ms: seq<Model>)
    requires !s.aborted
    ensures !Aborts(ms) ==> Strip(MergeModels(s, idx, ms).pending) == Strip(s.pending) + Tag(ms, idx)
  {
    if ms != [] && !Aborts(ms) {
      var init := ms[..|ms| - 1];
      MergeModelsPending(s, idx, init);
      MergeModelsAborts(s, idx, init);
    }
  }

  /** What stays true of the catalog and the listing built so far during a merge. */
  predicate Coherent(cat: CatalogView, items: seq<FlatItem>)
  {
    WellFormed(cat) && OwnersResolve(cat, items)
  }

  /** Existing entries keep their model and only gain indices at the end. */
  predicate Grows(before: CatalogView, after: CatalogView)
  {
    forall k :: k in before ==> k in after && after[k].model == before[k].model && before[k].urls <= after[k].urls
  }

  lemma AddIndexKeepsNoDuplicates(urls: seq<nat>, idx: nat)
    requires NoDuplicates(urls)
    ensures NoDuplicates(AddIndex(urls, idx)) && urls <= AddIndex(urls, idx) && idx in AddIndex(urls, idx)
  {
  }

  lemma GrowsKeepsOwners(before: CatalogView, after: CatalogView, items: seq<FlatItem>)
    requires OwnersResolve(before, items) && Grows(before, after)
    ensures OwnersResolve(after, items)
  {
  }

  lemma MergeModelCoherent(s: MergeState, idx: nat, m: Model, flat: seq<FlatItem>)
    requires Coherent(s.cat, flat) && OwnersResolve(s.cat, s.pending)
    ensures var t := MergeModel(s, idx, m);
      Coherent(t.cat, flat) && OwnersResolve(t.cat, t.pending) && Grows(s.cat, t.cat)
  {
    var t := MergeModel(s, idx, m);
    if !s.aborted && KeyOf(m.id).Some? {
      var k := KeyOf(m.id).value;
      if k in s.cat {
        AddIndexKeepsNoDuplicates(s.cat[k].urls, idx);
      }
      assert Grows(s.cat, t.cat);
      GrowsKeepsOwners(s.cat, t.cat, flat);
      GrowsKeepsOwners(s.cat, t.cat, s.pending);
      assert t.pending[..|t.pending| - 1] == s.pending;
    }
  }

  lemma {:induction false} MergeModelsCoherent(s: MergeState, idx: nat, ms: seq<Model>, flat: seq<FlatItem>)
    requires Coherent(s.cat, flat) && OwnersResolve(s.cat, s.pending)
    ensures var t := MergeModels(s, idx, ms);
      Coherent(t.cat, flat) && OwnersResolve(t.cat, t.pending) && Grows(s.cat, t.cat)
  {
    if ms != [] {
      var init := ms[..|ms| - 1];
      MergeModelsCoherent(s, idx, init, flat);
      var t := MergeModels(s, idx, init);
      MergeModelCoherent(t, idx, ms[|ms| - 1], flat);
    }
  }

  // ---------------------------------------------------------------------
  // The whole refresh

  lemma AddIndicesStep(urls: seq<nat>, idxs: seq<nat>, x: nat)
    ensures AddIndices(urls, idxs + [x]) == AddIndex(AddIndices(urls, idxs), x)
  {
    assert (idxs + [x])[..|idxs + [x]| - 1] == idxs;
  }

  /** The indices under every key after a refresh: the old ones, then each endpoint that merged it, once. */
  lemma {:induction false} MergeAllUrls(r: Refresh, os: seq<Outcome>, k: Key)
    ensures UrlsOf(MergeAll(r, os).cat, k) == AddIndices(UrlsOf(r.cat, k), ListedBy(os, k))
  {
    if os != [] {
      var init := os[..|os| - 1];
      var o := os[|os| - 1];
      MergeAllUrls(r, init, k);
      if o.Listed? {
        MergeModelsUrls(MergeState(MergeAll(r, init).cat, [], false), |os| - 1, o.models, k);
        if k in ProcessedKeys(o.models) {
          AddIndicesStep(UrlsOf(r.cat, k), ListedBy(init, k), |os| - 1);
        } else {
          assert ListedBy(init, k) + [] == ListedBy(init, k);
        }
      } else {
        assert ListedBy(init, k) + [] == ListedBy(init, k);
      }
    }
  }

  /** The keys after a refresh: the old ones and every key merged by some endpoint; nothing is removed. */
  lemma {:induction false} MergeAllKeys(r: Refresh, os: seq<Outcome>, k: Key)
    ensures k in MergeAll(r, os).cat <==> k in r.cat || ListedBy(os, k) != []
  {
    if os != [] {
      var init := os[..|os| - 1];
      var o := os[|os| - 1];
      MergeAllKeys(r, init, k);
      if o.Listed? {
        MergeModelsKeys(MergeState(MergeAll(r, init).cat, [], false), |os| - 1, o.models);
      }
    }
  }

  lemma {:induction false} FirstListedIsListed(os: seq<Outcome>, k: Key)
    ensures FirstListed(os, k).Some? <==> ListedBy(os, k) != []
  {
    if os != [] {
      var init := os[..|os| - 1];
      FirstListedIsListed(init, k);
      if os[|os| - 1].Listed? {
        FirstWithProcessed(os[|os| - 1].models, k);
      }
    }
  }

  /** The model under every key after a refresh: the old one if there was one, else the first model merged under it. */
  lemma {:induction false} MergeAllModels(r: Refresh, os: seq<Outcome>, k: Key)
    requires k in MergeAll(r, os).cat
    ensures k !in r.cat ==> FirstListed(os, k).Some?
    ensures MergeAll(r, os).cat[k].model == if k in r.cat then r.cat[k].model else FirstListed(os, k).value
  {
    MergeAllKeys(r, os, k);
    FirstListedIsListed(os, k);
    if os != [] {
      var init := os[..|os| - 1];
      var o := os[|os| - 1];
      var mid := MergeAll(r, init);
      MergeAllKeys(r, init, k);
      FirstListedIsListed(init, k);
      if k in mid.cat {
        MergeAllModels(r, init, k);
      }
      if o.Listed? {
        var s := MergeState(mid.cat, [], false);
        MergeModelsModel(s, |os| - 1, o.models, k);
        MergeModelsKeys(s, |os| - 1, o.models);
        FirstWithProcessed(o.models, k);
      }
    }
  }

  /** One endpoint's part of the flat listing: all its models, tagged with its index, unless it was skipped or aborted. */
  lemma MergeEndpointFlat(r: Refresh, idx: nat, o: Outcome)
    ensures Strip(MergeEndpoint(r, idx, o).flat)
         == Strip(r.flat) + (if o.Listed? && !Aborts(o.models) then Tag(o.models, idx) else [])
  {
    if o.Listed? {
      var s := MergeState(r.cat, [], false);
      MergeModelsAborts(s, idx, o.models);
      if !Aborts(o.models) {
        MergeModelsPending(s, idx, o.models);
        StripAppend(r.flat, MergeModels(s, idx, o.models).pending);
      } else {
        assert Strip(r.flat) + [] == Strip(r.flat);
      }
    } else {
      assert Strip(r.flat) + [] == Strip(r.flat);
    }
  }

  /** The flat listing after a refresh: the endpoints that did not fail, in index order, each with its models in order. */
  lemma {:induction false} MergeAllFlat(r: Refresh, os: seq<Outcome>)
    ensures Strip(MergeAll(r, os).flat) == Strip(r.flat) + Contributions(os)
  {
    if os != [] {
      var init := os[..|os| - 1];
      var o := os[|os| - 1];
      var mid := MergeAll(r, init);
      var extra := if o.Listed? && !Aborts(o.models) then Tag(o.models, |os| - 1) else [];
      MergeAllFlat(r, init);
      MergeEndpointFlat(mid, |os| - 1, o);
      assert MergeAll(r, os) == MergeEndpoint(mid, |os| - 1, o);
      assert Contributions(os) == Contributions(init) + extra;
      calc {
        Strip(MergeAll(r, os).flat);
        Strip(mid.flat) + extra;
        (Strip(r.flat) + Contributions(init)) + extra;
        Strip(r.flat) + (Contributions(init) + extra);
      }
    }
  }

  /** A refresh keeps the catalog well formed and every owner resolvable, and never drops or rewrites an entry. */
  lemma {:induction false} MergeAllCoherent(r: Refresh, os: seq<Outcome>)
    requires Coherent(r.cat, r.flat)
    ensures Coherent(MergeAll(r, os).cat, MergeAll(r, os).flat)
    ensures Grows(r.cat, MergeAll(r, os).cat)
  {
    if os != [] {
      var init := os[..|os| - 1];
      var o := os[|os| - 1];
      MergeAllCoherent(r, init);
      var mid := MergeAll(r, init);
      if o.Listed? {
        var s := MergeState(mid.cat, [], false);
        MergeModelsCoherent(s, |os| - 1, o.models, mid.flat);
      }
    }
  }

  // ---------------------------------------------------------------------
  // Consequences

  /** A refresh never removes a key: the key set afterwards contains the key set before. */
  lemma RefreshNeverPrunes(r: Refresh, os: seq<Outcome>)
    requires Coherent(r.cat, r.flat)
    ensures r.cat.Keys <= MergeAll(r, os).cat.Keys
  {
    MergeAllCoherent(r, os);
  }

  lemma {:induction false} ListedByIncreasing(os: seq<Outcome>, k: Key)
    ensures forall i, j :: 0 <= i < j < |ListedBy(os, k)| ==> ListedBy(os, k)[i] < ListedBy(os, k)[j]
    ensures forall i :: 0 <= i < |ListedBy(os, k)| ==> ListedBy(os, k)[i] < |os|
  {
    if os != [] {
      ListedByIncreasing(os[..|os| - 1], k);
    }
  }

  lemma {:induction false} AddIndicesFresh(idxs: seq<nat>)
    requires forall i, j :: 0 <= i < j < |idxs| ==> idxs[i] < idxs[j]
    ensures AddIndices([], idxs) == idxs
  {
    if idxs != [] {
      var init := idxs[..|idxs| - 1];
      AddIndicesFresh(init);
      assert idxs[|idxs| - 1] !in init by {
        forall i | 0 <= i < |init| ensures init[i] != idxs[|idxs| - 1] {
          assert init[i] == idxs[i];
        }
      }
      assert init + [idxs[|idxs| - 1]] == idxs;
    }
  }

  /**
   * An id new to the catalog ends up with exactly the endpoints that listed
   * it, in ascending index order, and the model first listed under it.
   */
  lemma NewEntryAfterRefresh(r: Refresh, os: seq<Outcome>, k: Key)
    requires k !in r.cat && ListedBy(os, k) != []
    ensures k in MergeAll(r, os).cat
    ensures MergeAll(r, os).cat[k].urls == ListedBy(os, k)
    ensures forall i, j :: 0 <= i < j < |ListedBy(os, k)| ==> ListedBy(os, k)[i] < ListedBy(os, k)[j]
    ensures Some(MergeAll(r, os).cat[k].model) == FirstListed(os, k)
  {
    MergeAllKeys(r, os, k);
    MergeAllUrls(r, os, k);
    MergeAllModels(r, os, k);
    ListedByIncreasing(os, k);
    AddIndicesFresh(ListedBy(os, k));
  }

  lemma {:induction false} AddIndicesKeeps(urls: seq<nat>, idxs: seq<nat>)
    ensures urls <= AddIndices(urls, idxs)
    ensures NoDuplicates(urls) ==> NoDuplicates(AddIndices(urls, idxs))
    ensures forall x :: x in AddIndices(urls, idxs) <==> x in urls || x in idxs
  {
    if idxs != [] {
      var init := idxs[..|idxs| - 1];
      AddIndicesKeeps(urls, init);
      if NoDuplicates(urls) {
        AddIndexKeepsNoDuplicates(AddIndices(urls, init), idxs[|idxs| - 1]);
      }
      assert forall x :: x in idxs <==> x in init || x == idxs[|idxs| - 1];
    }
  }

  /**
   * An id already in the catalog keeps the model first stored under it; its
   * indices keep their order and gain, without duplicates, every endpoint
   * that listed it.
   */
  lemma KnownEntryAfterRefresh(r: Refresh, os: seq<Outcome>, k: Key)
    requires Coherent(r.cat, r.flat) && k in r.cat
    ensures k in MergeAll(r, os).cat
    ensures MergeAll(r, os).cat[k].model == r.cat[k].model
    ensures r.cat[k].urls <= MergeAll(r, os).cat[k].urls
    ensures NoDuplicates(MergeAll(r, os).cat[k].urls)
    ensures forall x :: x in MergeAll(r, os).cat[k].urls <==> x in r.cat[k].urls || x in ListedBy(os, k)
  {
    MergeAllKeys(r, os, k);
    MergeAllUrls(r, os, k);
    MergeAllModels(r, os, k);
    AddIndicesKeeps(r.cat[k].urls, ListedBy(os, k));
  }

  lemma {:induction false} TagShape(ms: seq<Model>, idx: nat)
    ensures |Tag(ms, idx)| == |ms|
    ensures forall j :: 0 <= j < |ms| ==> Tag(ms, idx)[j] == Sourced(ms[j], idx)
  {
    if ms != [] {
      TagShape(ms[..|ms| - 1], idx);
    }
  }

  /**
   * The flat listing's reference is ordered by endpoint index, and every
   * element comes from an endpoint whose listing merged without failing:
   * an endpoint that fails contributes nothing and stops no later one.
   */
  lemma {:induction false} ContributionsOrdered(os: seq<Outcome>)
    ensures forall i, j :: 0 <= i < j < |Contributions(os)| ==> Contributions(os)[i].endpoint <= Contributions(os)[j].endpoint
    ensures forall i :: 0 <= i < |Contributions(os)| ==>
      var e := Contributions(os)[i].endpoint;
      e < |os| && os[e].Listed? && !Aborts(os[e].models) && Contributions(os)[i].model in os[e].models
  {
    if os != [] {
      var init := os[..|os| - 1];
      var o := os[|os| - 1];
      ContributionsOrdered(init);
      if o.Listed? {
        TagShape(o.models, |os| - 1);
      }
      assert forall e :: 0 <= e < |init| ==> init[e] == os[e];
    }
  }

  /**
   * What each element of the listing shows once the refresh is over. The
   * element that is the catalog's own object for its id shows every index
   * the catalog holds for that id, including those that endpoints after it
   * appended (its old indices, then each endpoint that listed it, once); any
   * other element still shows only the endpoint it came from.
   */
  lemma ObserveAfterRefresh(r: Refresh, os: seq<Outcome>, i: nat)
    requires Coherent(r.cat, r.flat)
    requires i < |MergeAll(r, os).flat|
    ensures OwnersResolve(MergeAll(r, os).cat, MergeAll(r, os).flat)
    ensures var after := MergeAll(r, os);
      var item := after.flat[i];
      && (item.owner ==>
            KeyOf(item.model.id).Some?
            && Observe(after.cat, after.flat)[i]
               == Entry(item.model, AddIndices(UrlsOf(r.cat, KeyOf(item.model.id).value), ListedBy(os, KeyOf(item.model.id).value))))
      && (!item.owner ==> Observe(after.cat, after.flat)[i] == Entry(item.model, [item.endpoint]))
  {
    MergeAllCoherent(r, os);
    var after := MergeAll(r, os);
    var item := after.flat[i];
    if item.owner {
      MergeAllUrls(r, os, KeyOf(item.model.id).value);
    }
  }

  /** The example of two endpoints that both list one model: one entry with urls [0, 1], listed twice. */
  lemma TwoEndpointsOneModel(m: Model)
    requires m.id == JString("m1")
    ensures var r := MergeAll(Refresh(map[], []), [Listed([m]), Listed([m])]);
      && r.cat.Keys == {KStr("m1")}
      && r.cat[KStr("m1")] == Entry(m, [0, 1])
      && r.flat == [FlatItem(m, 0, true), FlatItem(m, 1, false)]
      && Observe(r.cat, r.flat) == [Entry(m, [0, 1]), Entry(m, [1])]
  {
    var k := KStr("m1");
    var r0 := Refresh(map[], []);
    var os := [Listed([m]), Listed([m])];
    assert os[..1] == [Listed([m])];
    assert [m][..0] == [];
    assert [Listed([m])][..0] == [];
    var e0 := MergeState(map[], [], false);
    assert MergeModels(e0, 0, []) == e0;
    var s0 := MergeModels(e0, 0, [m]);
    assert s0 == MergeModel(MergeState(map[], [], false), 0, m);
    assert s0 == MergeState(map[k := Entry(m, [0])], [FlatItem(m, 0, true)], false);
    assert MergeAll(r0, []) == r0;
    var r1 := MergeAll(r0, os[..1]);
    assert r1 == MergeEndpoint(r0, 0, Listed([m]));
    assert r1 == Refresh(map[k := Entry(m, [0])], [FlatItem(m, 0, true)]);
    var e1 := MergeState(r1.cat, [], false);
    assert MergeModels(e1, 1, []) == e1;
    var s1 := MergeModels(e1, 1, [m]);
    assert s1 == MergeModel(MergeState(r1.cat, [], false), 1, m);
    assert 1 !in [0];
    assert AddIndex([0], 1) == [0, 1];
    assert s1 == MergeState(map[k := Entry(m, [0, 1])], [FlatItem(m, 1, false)], false);
    var r2 := MergeAll(r0, os);
    assert r2 == MergeEndpoint(r1, 1, Listed([m]));
    assert r2 == Refresh(map[k := Entry(m, [0, 1])], [FlatItem(m, 0, true), FlatItem(m, 1, false)]);
  }
}
