/** The readiness inspection before business authorization takes over, on an inventory of a tenant. */
module Cutover {
  import opened Options

  datatype CategoryKind = FixedKind | EvidenceKind

  datatype Category = Category(
    id: string, key: Option<string>, kind: CategoryKind, level: Option<int>, requiredDimensions: seq<string>)

  datatype Scope = Scope(
    enterpriseKey: string, ownership: string, storeName: Option<string>, dimensions: seq<(string, string)>)

  datatype Requirement = Requirement(categoryId: string, valid: bool, fileLevel: Option<int>, scopes: seq<Scope>)

  datatype Resource = Resource(
    id: string, kind: string, key: string, document: Option<string>, sourceDocument: Option<string>,
    requirement: Requirement)

  datatype Document = Document(id: string, kind: Option<string>, dataset: Option<string>)

  datatype Review = Review(id: string, enterpriseKey: string, storeName: string)

  datatype CardRecord = CardRecord(id: string, enterpriseKey: string, archived: bool)

  datatype Selection = All | Only(values: seq<string>)

  datatype Grant = Grant(
    id: string, enterpriseKey: string, stores: Option<Selection>, dimensions: seq<(string, Selection)>)

  datatype Account = Account(id: string, grants: seq<Grant>)

  datatype Store = Store(enterpriseKey: string, name: string)

  datatype Dimension = Dimension(id: string, values: seq<string>)

  datatype Inventory = Inventory(
    categories: seq<Category>, resources: seq<Resource>, documents: seq<Document>, partitions: seq<string>,
    reviewEnterprises: seq<string>, reviews: seq<Review>, cards: seq<CardRecord>, pdfs: seq<string>,
    accounts: seq<Account>, stores: seq<Store>, dimensions: seq<Dimension>)

  /** The domain's own validation of a scope against its category and of a grant. */
  datatype Rules = Rules(validScope: (Scope, Category) -> bool, validGrant: (Grant, seq<Category>) -> bool)

  datatype Code =
    | ReadAdapterNotReady | InternalCategoryRequired | FixedCategoryClearanceRequired | DimensionNotReady
    | ResourceAttributesRequired | ResourceCategoryMismatch | SingleStoreRequired | ExactStoreReferenceRequired
    | DimensionValueRequired | SourceLineageRequired | DocumentAttributesRequired | PartitionAttributesRequired
    | StoreReviewAttributesRequired | CostCardAttributesRequired | PdfAttributesRequired | GrantConfigurationRequired
    | GrantDimensionRequired

  datatype Issue = Issue(code: Code, target: string)

  const FIXED_KEYS := [
    "business", "dishes", "in_store_orders", "takeaway_orders", "vip", "dish_catalog", "supplier_catalog", "cost_cards",
    "store_reviews", "delivery_ledger", "quarantine_certificate", "ledger_pdf"]

  const READ_ADAPTERS := [
    "store_review_query", "structured_query", "structured_coverage", "partition_catalog", "partition_download",
    "source_download", "evidence_search", "evidence_status", "quarantine_certificate", "ledger_pdf", "ledger_download",
    "document_lifecycle", "cost_card_catalog", "cost_card_download", "cost_card_lifecycle"]

  predicate IsClearance(level: Option<int>) { level.Some? && 0 <= level.value <= 3 }

  // ---------------------------------------------------------------- scanning

  /** The last category with an id, as building a map from a list keeps it. */
  function LastCategory(cs: seq<Category>, id: string): Option<Category> {
    if cs == [] then None
    else if cs[|cs| - 1].id == id then Some(cs[|cs| - 1])
    else LastCategory(cs[..|cs| - 1], id)
  }

  function LastDimension(ds: seq<Dimension>, id: string): Option<Dimension> {
    if ds == [] then None
    else if ds[|ds| - 1].id == id then Some(ds[|ds| - 1])
    else LastDimension(ds[..|ds| - 1], id)
  }

  /** The last resource of a kind with a key. */
  function LastResource(rs: seq<Resource>, kind: string, key: string): Option<Resource> {
    if rs == [] then None
    else if rs[|rs| - 1].kind == kind && rs[|rs| - 1].key == key then Some(rs[|rs| - 1])
    else LastResource(rs[..|rs| - 1], kind, key)
  }

  lemma {:induction false} LastCategoryFits(cs: seq<Category>, id: string)
    ensures LastCategory(cs, id).Some? <==> exists c | c in cs :: c.id == id
    ensures LastCategory(cs, id).Some? ==> LastCategory(cs, id).value in cs && LastCategory(cs, id).value.id == id
  {
    if cs != [] {
      LastCategoryFits(cs[..|cs| - 1], id);
      assert cs == cs[..|cs| - 1] + [cs[|cs| - 1]];
    }
  }

  lemma {:induction false} LastDimensionFits(ds: seq<Dimension>, id: string)
    ensures LastDimension(ds, id).Some? <==> exists d | d in ds :: d.id == id
    ensures LastDimension(ds, id).Some? ==> LastDimension(ds, id).value in ds && LastDimension(ds, id).value.id == id
  {
    if ds != [] {
      LastDimensionFits(ds[..|ds| - 1], id);
      assert ds == ds[..|ds| - 1] + [ds[|ds| - 1]];
    }
  }

  lemma {:induction false} LastResourceFits(rs: seq<Resource>, kind: string, key: string)
    ensures LastResource(rs, kind, key).Some? <==> HasKey(rs, kind, key)
    ensures var r := LastResource(rs, kind, key);
      r.Some? ==> r.value in rs && r.value.kind == kind && r.value.key == key
  {
    if rs != [] {
      LastResourceFits(rs[..|rs| - 1], kind, key);
      assert rs == rs[..|rs| - 1] + [rs[|rs| - 1]];
    }
  }

  /** Ids identify categories and dimensions; a key identifies a resource within its kind. */
  ghost predicate Keyed(inv: Inventory) {
    && (forall c, d | c in inv.categories && d in inv.categories && c.id == d.id :: c == d)
    && (forall c, d | c in inv.dimensions && d in inv.dimensions && c.id == d.id :: c == d)
    && (forall r, s | r in inv.resources && s in inv.resources && r.kind == s.kind && r.key == s.key :: r == s)
  }

  /** Where ids and keys identify, the last one found is the only one there is. */
  lemma KeyedLastIsOnly(inv: Inventory)
    requires Keyed(inv)
    ensures forall c | c in inv.categories :: LastCategory(inv.categories, c.id) == Some(c)
    ensures forall d | d in inv.dimensions :: LastDimension(inv.dimensions, d.id) == Some(d)
    ensures forall r | r in inv.resources :: LastResource(inv.resources, r.kind, r.key) == Some(r)
  {
    forall c | c in inv.categories
      ensures LastCategory(inv.categories, c.id) == Some(c)
    {
      LastCategoryFits(inv.categories, c.id);
    }
    forall d | d in inv.dimensions
      ensures LastDimension(inv.dimensions, d.id) == Some(d)
    {
      LastDimensionFits(inv.dimensions, d.id);
    }
    forall r | r in inv.resources
      ensures LastResource(inv.resources, r.kind, r.key) == Some(r)
    {
      LastResourceFits(inv.resources, r.kind, r.key);
    }
  }

  // ---------------------------------------------------------------- indexes

  /** An index of resources by some key: the resources with a key are the ones that were put under it. */
  type Groups<!K> = map<K, seq<Resource>>

  function Get<K>(m: Groups<K>, k: K): seq<Resource> { if k in m then m[k] else [] }

  function Push<K>(m: Groups<K>, k: K, r: Resource): Groups<K> { m[k := Get(m, k) + [r]] }

  predicate IsFragment(r: Resource, document: string) {
    r.kind == "source_fragment" && r.sourceDocument == Some(document)
  }

  predicate IsOf(r: Resource, k: (string, string)) { r.kind == k.0 && r.document == Some(k.1) }

  ghost predicate FragmentsOk(rs: seq<Resource>, m: Groups<string>) {
    forall k, r :: r in Get(m, k) <==> r in rs && IsFragment(r, k)
  }

  ghost predicate DocumentsOk(rs: seq<Resource>, m: Groups<(string, string)>) {
    forall k, r :: r in Get(m, k) <==> r in rs && IsOf(r, k)
  }

  ghost predicate KeysOk(rs: seq<Resource>, kind: string, keys: set<string>) {
    forall k :: k in keys <==> HasKey(rs, kind, k)
  }

  ghost predicate HasKey(rs: seq<Resource>, kind: string, key: string) {
    exists r | r in rs :: r.kind == kind && r.key == key
  }

  ghost predicate ByKeyOk(rs: seq<Resource>, kind: string, m: map<string, Resource>) {
    forall k :: Look(m, k) == LastResource(rs, kind, k)
  }

  lemma FragmentsStep(rs: seq<Resource>, m: Groups<string>, r: Resource)
    requires FragmentsOk(rs, m)
    ensures r.kind == "source_fragment" && r.sourceDocument.Some? ==>
      FragmentsOk(rs + [r], Push(m, r.sourceDocument.value, r))
    ensures !(r.kind == "source_fragment" && r.sourceDocument.Some?) ==> FragmentsOk(rs + [r], m)
  {
  }

  lemma DocumentsStep(rs: seq<Resource>, m: Groups<(string, string)>, r: Resource)
    requires DocumentsOk(rs, m)
    ensures r.document.Some? ==> DocumentsOk(rs + [r], Push(m, (r.kind, r.document.value), r))
    ensures r.document.None? ==> DocumentsOk(rs + [r], m)
  {
  }

  lemma KeysStep(rs: seq<Resource>, kind: string, keys: set<string>, r: Resource)
    requires KeysOk(rs, kind, keys)
    ensures KeysOk(rs + [r], kind, if r.kind == kind then keys + {r.key} else keys)
  {
    forall k
      ensures HasKey(rs + [r], kind, k) <==> HasKey(rs, kind, k) || (r.kind == kind && r.key == k)
    {
      assert r in rs + [r];
      assert forall s | s in rs :: s in rs + [r];
    }
  }

  lemma ByKeyStep(rs: seq<Resource>, kind: string, m: map<string, Resource>, r: Resource)
    requires ByKeyOk(rs, kind, m)
    ensures ByKeyOk(rs + [r], kind, if r.kind == kind then m[r.key := r] else m)
  {
    var n := if r.kind == kind then m[r.key := r] else m;
    assert (rs + [r])[..|rs|] == rs;
    forall k
      ensures Look(n, k) == LastResource(rs + [r], kind, k)
    {
      assert Look(m, k) == LastResource(rs, kind, k);
    }
  }

  datatype ResourceIndex = ResourceIndex(
    fragments: Groups<string>, documents: Groups<(string, string)>, partitions: set<string>, pdfs: set<string>,
    reviews: map<string, Resource>, cards: map<string, Resource>)

  ghost predicate ResourcesOk(rs: seq<Resource>, ix: ResourceIndex) {
    && FragmentsOk(rs, ix.fragments) && DocumentsOk(rs, ix.documents)
    && KeysOk(rs, "structured", ix.partitions) && KeysOk(rs, "ledger_pdf", ix.pdfs)
    && ByKeyOk(rs, "store_review", ix.reviews) && ByKeyOk(rs, "cost_card", ix.cards)
  }

  method IndexResources(resources: seq<Resource>) returns (ix: ResourceIndex)
    ensures ResourcesOk(resources, ix)
  {
    var fragments: Groups<string> := map[];
    var documents: Groups<(string, string)> := map[];
    var partitions: set<string>, pdfs: set<string> := {}, {};
    var reviews: map<string, Resource>, cards: map<string, Resource> := map[], map[];
    for i := 0 to |resources|
      invariant FragmentsOk(resources[..i], fragments) && DocumentsOk(resources[..i], documents)
      invariant KeysOk(resources[..i], "structured", partitions) && KeysOk(resources[..i], "ledger_pdf", pdfs)
      invariant ByKeyOk(resources[..i], "store_review", reviews) && ByKeyOk(resources[..i], "cost_card", cards)
    {
      var r := resources[i];
      assert resources[..i + 1] == resources[..i] + [r];
      FragmentsStep(resources[..i], fragments, r);
      DocumentsStep(resources[..i], documents, r);
      KeysStep(resources[..i], "structured", partitions, r);
      KeysStep(resources[..i], "ledger_pdf", pdfs, r);
      ByKeyStep(resources[..i], "store_review", reviews, r);
      ByKeyStep(resources[..i], "cost_card", cards, r);
      if r.kind == "source_fragment" && r.sourceDocument.Some? {
        fragments := Push(fragments, r.sourceDocument.value, r);
      }
      if r.document.Some? {
        documents := Push(documents, (r.kind, r.document.value), r);
      }
      if r.kind == "structured" {
        partitions := partitions + {r.key};
      }
      if r.kind == "ledger_pdf" {
        pdfs := pdfs + {r.key};
      }
      if r.kind == "store_review" {
        reviews := reviews[r.key := r];
      }
      if r.kind == "cost_card" {
        cards := cards[r.key := r];
      }
    }
    assert resources[..|resources|] == resources;
    ix := ResourceIndex(fragments, documents, partitions, pdfs, reviews, cards);
  }

  type Categories = map<string, Category>

  type Dimensions = map<string, set<string>>

  ghost predicate CategoriesOk(cs: seq<Category>, m: Categories) {
    forall id :: Find(m, id) == LastCategory(cs, id)
  }

  method IndexCategories(cs: seq<Category>) returns (m: Categories)
    ensures CategoriesOk(cs, m)
  {
    m := map[];
    for i := 0 to |cs|
      invariant CategoriesOk(cs[..i], m)
    {
      assert cs[..i + 1][..i] == cs[..i];
      m := m[cs[i].id := cs[i]];
    }
    assert cs[..|cs|] == cs;
  }

  function ValueSet(d: Dimension): set<string> { set v | v in d.values }

  ghost predicate DimensionsOk(ds: seq<Dimension>, m: Dimensions) {
    forall id :: if id in m then LastDimension(ds, id).Some? && m[id] == ValueSet(LastDimension(ds, id).value)
                 else LastDimension(ds, id).None?
  }

  method IndexDimensions(ds: seq<Dimension>) returns (m: Dimensions)
    ensures DimensionsOk(ds, m)
  {
    m := map[];
    for i := 0 to |ds|
      invariant DimensionsOk(ds[..i], m)
    {
      assert ds[..i + 1][..i] == ds[..i];
      m := m[ds[i].id := ValueSet(ds[i])];
    }
    assert ds[..|ds|] == ds;
  }

  datatype Index = Index(categories: Categories, dimensions: Dimensions, stores: set<Store>, resources: ResourceIndex)

  ghost predicate IndexOk(inv: Inventory, ix: Index) {
    && CategoriesOk(inv.categories, ix.categories) && DimensionsOk(inv.dimensions, ix.dimensions)
    && (forall s :: s in ix.stores <==> s in inv.stores) && ResourcesOk(inv.resources, ix.resources)
  }

  // ---------------------------------------------------------------- looking up against scanning

  /** The category with an id, by the index. */
  function Find(m: Categories, id: string): Option<Category> { if id in m then Some(m[id]) else None }

  ghost predicate IsCategory(inv: Inventory, id: string, c: Category) { LastCategory(inv.categories, id) == Some(c) }

  lemma FindIsScan(inv: Inventory, ix: Index, id: string, c: Category)
    requires IndexOk(inv, ix)
    ensures Find(ix.categories, id) == Some(c) <==> IsCategory(inv, id, c)
  {
    assert Find(ix.categories, id) == LastCategory(inv.categories, id);
  }

  ghost predicate HasDimension(inv: Inventory, id: string) { exists d | d in inv.dimensions :: d.id == id }

  /** The last dimension with the id has the value. */
  ghost predicate HasValue(inv: Inventory, id: string, value: string) {
    var d := LastDimension(inv.dimensions, id); d.Some? && value in d.value.values
  }

  lemma DimensionIsScan(inv: Inventory, ix: Index, id: string)
    requires IndexOk(inv, ix)
    ensures id in ix.dimensions <==> HasDimension(inv, id)
    ensures forall v :: (id in ix.dimensions && v in ix.dimensions[id]) <==> HasValue(inv, id, v)
  {
    LastDimensionFits(inv.dimensions, id);
    assert id in ix.dimensions <==> LastDimension(inv.dimensions, id).Some?;
  }

  ghost predicate HasStore(inv: Inventory, enterpriseKey: string, name: Option<string>) {
    name.Some? && Store(enterpriseKey, name.value) in inv.stores
  }

  predicate Known(ix: Index, enterpriseKey: string, name: Option<string>) {
    name.Some? && Store(enterpriseKey, name.value) in ix.stores
  }

  /** The resource of a kind with a key, by the index. */
  function Look(m: map<string, Resource>, key: string): Option<Resource> { if key in m then Some(m[key]) else None }

  lemma LookIsScan(inv: Inventory, ix: Index, key: string)
    requires IndexOk(inv, ix)
    ensures Look(ix.resources.reviews, key) == LastResource(inv.resources, "store_review", key)
    ensures Look(ix.resources.cards, key) == LastResource(inv.resources, "cost_card", key)
  {
    assert ByKeyOk(inv.resources, "store_review", ix.resources.reviews);
    assert ByKeyOk(inv.resources, "cost_card", ix.resources.cards);
  }
}
