/** The inspection itself, and what it means without its indexes. */
module CutoverInspection {
  import opened Options
  import opened Cutover

  // ---------------------------------------------------------------- what is missing, by scanning

  ghost predicate FixedWith(c: Category, key: string) { c.kind == FixedKind && c.key == Some(key) }

  /** The first fixed category with a key. */
  function FirstFixed(cs: seq<Category>, key: string): (r: Option<Category>)
    ensures r.None? <==> forall i | 0 <= i < |cs| :: !FixedWith(cs[i], key)
    ensures r.Some? ==> exists i | 0 <= i < |cs| ::
      r.value == cs[i] && FixedWith(cs[i], key) && forall j | 0 <= j < i :: !FixedWith(cs[j], key)
  {
    if cs == [] then None
    else if cs[0].kind == FixedKind && cs[0].key == Some(key) then Some(cs[0])
    else
      var r := FirstFixed(cs[1..], key);
      assert forall i | 1 <= i < |cs| :: cs[i] == cs[1..][i - 1];
      assert forall i | 0 <= i < |cs[1..]| :: cs[1..][i] == cs[i + 1];
      assert r.Some? ==> exists i | 0 <= i < |cs[1..]| ::
          r.value == cs[1..][i] && FixedWith(cs[1..][i], key) && forall j | 0 <= j < i :: !FixedWith(cs[1..][j], key);
      r
  }

  /** One of the four levels. */
  predicate Cleared(level: Option<int>) { level in {Some(0), Some(1), Some(2), Some(3)} }

  ghost predicate KeyDue(inv: Inventory, key: string, code: Code) {
    var cs := inv.categories;
    match code
    case InternalCategoryRequired => key == "delivery_ledger" && forall i | 0 <= i < |cs| :: !FixedWith(cs[i], key)
    case FixedCategoryClearanceRequired =>
      key != "delivery_ledger" &&
      !exists i | 0 <= i < |cs| ::
        FixedWith(cs[i], key) && Cleared(cs[i].level) && forall j | 0 <= j < i :: !FixedWith(cs[j], key)
    case _ => false
  }

  ghost predicate CategoryDue(inv: Inventory, c: Category, code: Code) {
    code == DimensionNotReady && exists id | id in c.requiredDimensions :: !HasDimension(inv, id)
  }

  ghost predicate InCategory(inv: Inventory, r: Resource, c: Category) { IsCategory(inv, r.requirement.categoryId, c) }

  ghost predicate Attributed(inv: Inventory, rules: Rules, r: Resource) {
    exists c | InCategory(inv, r, c) ::
      && r.requirement.scopes != [] && (forall s | s in r.requirement.scopes :: rules.validScope(s, c))
      && (c.kind == EvidenceKind ==> Cleared(r.requirement.fileLevel))
  }

  ghost predicate WithKey(inv: Inventory, r: Resource, key: string, kind: Option<CategoryKind>) {
    exists c | InCategory(inv, r, c) :: c.key == Some(key) && (kind.Some? ==> c.kind == kind.value)
  }

  ghost predicate OfKind(inv: Inventory, r: Resource, kind: CategoryKind) {
    exists c | InCategory(inv, r, c) :: c.kind == kind
  }

  /** The category of a resource suits its kind. */
  ghost predicate Fits(inv: Inventory, r: Resource) {
    && (r.kind == "evidence" ==> OfKind(inv, r, EvidenceKind))
    && (r.kind in {"quarantine_certificate", "ledger_pdf"} ==> WithKey(inv, r, r.kind, None))
    && (r.kind == "store_review" <==> WithKey(inv, r, "store_reviews", None))
    && (r.kind == "store_review" ==> WithKey(inv, r, "store_reviews", Some(FixedKind)))
    && (r.kind == "cost_card" ==> WithKey(inv, r, "cost_cards", Some(FixedKind)))
    && (r.kind in {"structured", "source_fragment"} ==> OfKind(inv, r, FixedKind))
  }

  predicate SingleStore(r: Resource) {
    |r.requirement.scopes| == 1 && r.requirement.scopes[0].ownership == "store"
  }

  /** The resource has one scope and no other. */
  ghost predicate OnlyScope(r: Resource, s: Scope) { r.requirement.scopes == [s] }

  ghost predicate ResourceDue(inv: Inventory, rules: Rules, r: Resource, code: Code) {
    match code
    case ResourceAttributesRequired => !Attributed(inv, rules, r)
    case ResourceCategoryMismatch => !Fits(inv, r)
    case SingleStoreRequired =>
      r.kind in {"quarantine_certificate", "ledger_pdf", "store_review"}
      && forall s | OnlyScope(r, s) :: s.ownership != "store"
    case ExactStoreReferenceRequired =>
      exists s | s in r.requirement.scopes :: s.ownership == "store" && !HasStore(inv, s.enterpriseKey, s.storeName)
    case DimensionValueRequired =>
      exists s | s in r.requirement.scopes :: exists d | d in s.dimensions :: !HasValue(inv, d.0, d.1)
    case _ => false
  }

  /** Some resource belongs to a document; for a structured one every fragment must be of its dataset. */
  ghost predicate DocumentDue(inv: Inventory, d: Document, code: Code) {
    if d.kind == Some("structured") then
      code == SourceLineageRequired &&
      ((forall r | r in inv.resources :: !(r.kind == "source_fragment" && r.sourceDocument == Some(d.id)))
       || exists r | r in inv.resources && r.kind == "source_fragment" && r.sourceDocument == Some(d.id) ::
            d.dataset.None? || !WithKey(inv, r, d.dataset.value, None))
    else
      code == DocumentAttributesRequired && forall r | r in inv.resources ::
        !(Some(r.kind) == d.kind && r.document == Some(d.id))
  }

  predicate ReviewMatches(r: Resource, v: Review) {
    && r.requirement.valid && r.document.None? && r.sourceDocument.None? && SingleStore(r)
    && r.requirement.scopes[0].enterpriseKey == v.enterpriseKey
    && r.requirement.scopes[0].storeName == Some(v.storeName)
  }

  /** A resource that is for a review: valid, of no document, and with the review's store as its only scope. */
  ghost predicate ForReview(r: Resource, v: Review) {
    && r.requirement.valid && r.document.None? && r.sourceDocument.None?
    && exists s | OnlyScope(r, s) ::
         s.ownership == "store" && s.enterpriseKey == v.enterpriseKey && s.storeName == Some(v.storeName)
  }

  lemma ReviewMatchesMeans(r: Resource, v: Review)
    ensures ReviewMatches(r, v) <==> ForReview(r, v)
  {
    if ReviewMatches(r, v) {
      assert OnlyScope(r, r.requirement.scopes[0]);
    }
  }

  ghost predicate ReviewDue(inv: Inventory, v: Review, code: Code) {
    && code == StoreReviewAttributesRequired
    && var r := LastResource(inv.resources, "store_review", "store-review:" + v.id);
       !(v.enterpriseKey in inv.reviewEnterprises && r.Some? && ForReview(r.value, v))
  }

  predicate CardMatches(r: Resource, c: CardRecord) {
    && |r.requirement.scopes| == 1 && r.requirement.scopes[0].ownership == "group"
    && r.requirement.scopes[0].enterpriseKey == c.enterpriseKey && r.requirement.valid == !c.archived
  }

  /** A resource that is for a card: the group is its only scope, and it is valid exactly if the card is not
      archived. */
  ghost predicate ForCard(r: Resource, c: CardRecord) {
    && (r.requirement.valid <==> !c.archived)
    && exists s | OnlyScope(r, s) :: s.ownership == "group" && s.enterpriseKey == c.enterpriseKey
  }

  lemma CardMatchesMeans(r: Resource, c: CardRecord)
    ensures CardMatches(r, c) <==> ForCard(r, c)
  {
    if CardMatches(r, c) {
      assert OnlyScope(r, r.requirement.scopes[0]);
    }
  }

  ghost predicate CardDue(inv: Inventory, c: CardRecord, code: Code) {
    && code == CostCardAttributesRequired
    && var r := LastResource(inv.resources, "cost_card", "cost-card:" + c.id); !(r.Some? && ForCard(r.value, c))
  }

  /** Where a key identifies a resource, these conditions are that no matching resource exists at all. */
  lemma KeyedMeansAny(inv: Inventory, v: Review, c: CardRecord)
    requires Keyed(inv)
    ensures ReviewDue(inv, v, StoreReviewAttributesRequired) <==>
      v.enterpriseKey !in inv.reviewEnterprises
      || forall r | r in inv.resources && r.kind == "store_review" && r.key == "store-review:" + v.id ::
           !ForReview(r, v)
    ensures CardDue(inv, c, CostCardAttributesRequired) <==>
      forall r | r in inv.resources && r.kind == "cost_card" && r.key == "cost-card:" + c.id :: !ForCard(r, c)
  {
    KeyedLastIsOnly(inv);
    LastResourceFits(inv.resources, "store_review", "store-review:" + v.id);
    LastResourceFits(inv.resources, "cost_card", "cost-card:" + c.id);
  }

  ghost predicate GrantDue(inv: Inventory, rules: Rules, g: Grant, code: Code) {
    match code
    case GrantConfigurationRequired => !rules.validGrant(g, inv.categories)
    case ExactStoreReferenceRequired =>
      g.stores.Some? && g.stores.value.Only? && exists n | n in g.stores.value.values ::
        !HasStore(inv, g.enterpriseKey, Some(n))
    case GrantDimensionRequired =>
      exists d | d in g.dimensions ::
        !HasDimension(inv, d.0) || (d.1.Only? && exists v | v in d.1.values :: !HasValue(inv, d.0, v))
    case _ => false
  }

  // ---------------------------------------------------------------- one item, by the indexes

  function When(condition: bool, code: Code): seq<Code> { if condition then [code] else [] }

  /** One code for each required dimension that is not there. */
  function CategoryCodes(ix: Index, required: seq<string>): (r: seq<Code>)
    ensures forall code :: code in r <==>
      code == DimensionNotReady && exists id | id in required :: id !in ix.dimensions
  {
    if required == [] then []
    else When(required[0] !in ix.dimensions, DimensionNotReady) + CategoryCodes(ix, required[1..])
  }

  predicate ValueMissing(ix: Index, d: (string, string)) { !(d.0 in ix.dimensions && d.1 in ix.dimensions[d.0]) }

  function ValueCodes(ix: Index, ds: seq<(string, string)>): (r: seq<Code>)
    ensures forall code :: code in r <==> code == DimensionValueRequired && exists d | d in ds :: ValueMissing(ix, d)
  {
    if ds == [] then [] else When(ValueMissing(ix, ds[0]), DimensionValueRequired) + ValueCodes(ix, ds[1..])
  }

  predicate StoreMissing(ix: Index, s: Scope) { s.ownership == "store" && !Known(ix, s.enterpriseKey, s.storeName) }

  /** The codes of each scope in turn: its store, then its dimension values. */
  function ScopeCodes(ix: Index, scopes: seq<Scope>): (r: seq<Code>)
    ensures ExactStoreReferenceRequired in r <==> exists s | s in scopes :: StoreMissing(ix, s)
    ensures DimensionValueRequired in r <==>
      exists s | s in scopes :: exists d | d in s.dimensions :: ValueMissing(ix, d)
    ensures forall code | code in r :: code == ExactStoreReferenceRequired || code == DimensionValueRequired
  {
    if scopes == [] then []
    else
      When(StoreMissing(ix, scopes[0]), ExactStoreReferenceRequired) + ValueCodes(ix, scopes[0].dimensions)
        + ScopeCodes(ix, scopes[1..])
  }

  function ResourceCodes(ix: Index, rules: Rules, r: Resource): seq<Code> {
    var q := r.requirement;
    var c := Find(ix.categories, q.categoryId);
    When(Unattributed(rules, q, c), ResourceAttributesRequired)
    + When(Mismatch(r.kind, c), ResourceCategoryMismatch)
    + When(r.kind in {"quarantine_certificate", "ledger_pdf", "store_review"} && !SingleStore(r), SingleStoreRequired)
    + ScopeCodes(ix, q.scopes)
  }

  predicate Unattributed(rules: Rules, q: Requirement, c: Option<Category>) {
    || c.None? || q.scopes == [] || (exists s | s in q.scopes :: !rules.validScope(s, c.value))
    || (c.value.kind == EvidenceKind && !IsClearance(q.fileLevel))
  }

  predicate Mismatch(kind: string, c: Option<Category>) {
    || (kind == "evidence" && !(c.Some? && c.value.kind == EvidenceKind))
    || (kind in {"quarantine_certificate", "ledger_pdf"} && !(c.Some? && c.value.key == Some(kind)))
    || (kind == "store_review" && !(c.Some? && c.value.key == Some("store_reviews") && c.value.kind == FixedKind))
    || (c.Some? && c.value.key == Some("store_reviews") && kind != "store_review")
    || (kind == "cost_card" && !(c.Some? && c.value.key == Some("cost_cards") && c.value.kind == FixedKind))
    || (kind in {"structured", "source_fragment"} && !(c.Some? && c.value.kind == FixedKind))
  }

  predicate DatasetDiffers(ix: Index, r: Resource, dataset: Option<string>) {
    var c := Find(ix.categories, r.requirement.categoryId);
    c.None? || c.value.key.None? || c.value.key != dataset
  }

  function DocumentCodes(ix: Index, d: Document): seq<Code> {
    if d.kind == Some("structured") then
      var matches := Get(ix.resources.fragments, d.id);
      When(matches == [] || exists r | r in matches :: DatasetDiffers(ix, r, d.dataset), SourceLineageRequired)
    else
      var matches := if d.kind.None? then [] else Get(ix.resources.documents, (d.kind.value, d.id));
      When(matches == [], DocumentAttributesRequired)
  }

  function ReviewCodes(ix: Index, enterprises: set<string>, v: Review): seq<Code> {
    var r := Look(ix.resources.reviews, "store-review:" + v.id);
    When(r.None? || v.enterpriseKey !in enterprises || !ReviewMatches(r.value, v), StoreReviewAttributesRequired)
  }

  function CardCodes(ix: Index, c: CardRecord): seq<Code> {
    var r := Look(ix.resources.cards, "cost-card:" + c.id);
    When(r.None? || !CardMatches(r.value, c), CostCardAttributesRequired)
  }

  function GrantCodes(ix: Index, rules: Rules, categories: seq<Category>, g: Grant): seq<Code> {
    When(!rules.validGrant(g, categories), GrantConfigurationRequired)
    + When(g.stores.Some? && g.stores.value.Only? && exists n | n in g.stores.value.values ::
      !Known(ix, g.enterpriseKey, Some(n)),
        ExactStoreReferenceRequired)
    + GrantedCodes(ix, g.dimensions)
  }

  function GrantedCodes(ix: Index, ds: seq<(string, Selection)>): (r: seq<Code>)
    ensures forall code :: code in r <==> code == GrantDimensionRequired && exists d | d in ds :: !Granted(ix, d)
  {
    if ds == [] then [] else When(!Granted(ix, ds[0]), GrantDimensionRequired) + GrantedCodes(ix, ds[1..])
  }

  predicate Granted(ix: Index, d: (string, Selection)) {
    d.0 in ix.dimensions && (d.1.All? || forall v | v in d.1.values :: v in ix.dimensions[d.0])
  }

  // ---------------------------------------------------------------- the indexes mean the scans

  lemma CategoryScan(inv: Inventory, ix: Index, r: Resource)
    requires IndexOk(inv, ix)
    ensures forall c :: InCategory(inv, r, c) <==> Find(ix.categories, r.requirement.categoryId) == Some(c)
  {
    forall c
      ensures InCategory(inv, r, c) <==> Find(ix.categories, r.requirement.categoryId) == Some(c)
    {
      FindIsScan(inv, ix, r.requirement.categoryId, c);
    }
  }

  lemma AttributedScan(inv: Inventory, ix: Index, rules: Rules, r: Resource)
    requires IndexOk(inv, ix)
    ensures !Attributed(inv, rules, r) <==>
      Unattributed(rules, r.requirement, Find(ix.categories, r.requirement.categoryId))
  {
    CategoryScan(inv, ix, r);
    var c := Find(ix.categories, r.requirement.categoryId);
    if c.Some? {
      assert InCategory(inv, r, c.value);
    }
  }

  lemma KeyScan(inv: Inventory, ix: Index, r: Resource, key: string, kind: Option<CategoryKind>)
    requires IndexOk(inv, ix)
    ensures var c := Find(ix.categories, r.requirement.categoryId);
      WithKey(inv, r, key, kind) <==> c.Some? && c.value.key == Some(key) && (kind.Some? ==> c.value.kind == kind.value)
  {
    CategoryScan(inv, ix, r);
    var c := Find(ix.categories, r.requirement.categoryId);
    if c.Some? {
      assert InCategory(inv, r, c.value);
    }
  }

  lemma KindScan(inv: Inventory, ix: Index, r: Resource, kind: CategoryKind)
    requires IndexOk(inv, ix)
    ensures var c := Find(ix.categories, r.requirement.categoryId);
      OfKind(inv, r, kind) <==> c.Some? && c.value.kind == kind
  {
    CategoryScan(inv, ix, r);
    var c := Find(ix.categories, r.requirement.categoryId);
    if c.Some? {
      assert InCategory(inv, r, c.value);
    }
  }

  lemma FitsScan(inv: Inventory, ix: Index, r: Resource)
    requires IndexOk(inv, ix)
    ensures !Fits(inv, r) <==> Mismatch(r.kind, Find(ix.categories, r.requirement.categoryId))
  {
    KindScan(inv, ix, r, EvidenceKind);
    KindScan(inv, ix, r, FixedKind);
    KeyScan(inv, ix, r, r.kind, None);
    KeyScan(inv, ix, r, "store_reviews", None);
    KeyScan(inv, ix, r, "store_reviews", Some(FixedKind));
    KeyScan(inv, ix, r, "cost_cards", Some(FixedKind));
  }

  lemma StoresScan(inv: Inventory, ix: Index)
    requires IndexOk(inv, ix)
    ensures forall e, n :: HasStore(inv, e, n) <==> Known(ix, e, n)
  {
  }

  lemma ValueScan(inv: Inventory, ix: Index)
    requires IndexOk(inv, ix)
    ensures forall id, v :: HasValue(inv, id, v) <==> id in ix.dimensions && v in ix.dimensions[id]
    ensures forall id :: HasDimension(inv, id) <==> id in ix.dimensions
  {
    forall id
      ensures HasDimension(inv, id) <==> id in ix.dimensions
      ensures forall v :: HasValue(inv, id, v) <==> id in ix.dimensions && v in ix.dimensions[id]
    {
      DimensionIsScan(inv, ix, id);
    }
  }

  /** Which codes a resource gets, one condition a code. */
  predicate ResourceGets(ix: Index, rules: Rules, r: Resource, code: Code) {
    var c := Find(ix.categories, r.requirement.categoryId);
    match code
    case ResourceAttributesRequired => Unattributed(rules, r.requirement, c)
    case ResourceCategoryMismatch => Mismatch(r.kind, c)
    case SingleStoreRequired => r.kind in {"quarantine_certificate", "ledger_pdf", "store_review"} && !SingleStore(r)
    case _ => code in ScopeCodes(ix, r.requirement.scopes)
  }

  lemma ResourceGetsExact(ix: Index, rules: Rules, r: Resource, code: Code)
    ensures code in ResourceCodes(ix, rules, r) <==> ResourceGets(ix, rules, r, code)
  {
  }

  lemma ScopesScan(inv: Inventory, ix: Index, r: Resource)
    requires IndexOk(inv, ix)
    ensures ExactStoreReferenceRequired in ScopeCodes(ix, r.requirement.scopes) <==>
      exists s | s in r.requirement.scopes :: s.ownership == "store" && !HasStore(inv, s.enterpriseKey, s.storeName)
    ensures DimensionValueRequired in ScopeCodes(ix, r.requirement.scopes) <==>
      exists s | s in r.requirement.scopes :: exists d | d in s.dimensions :: !HasValue(inv, d.0, d.1)
  {
    StoresScan(inv, ix);
    ValueScan(inv, ix);
    assert forall d :: ValueMissing(ix, d) <==> !HasValue(inv, d.0, d.1);
    assert forall s: Scope :: StoreMissing(ix, s) <==>
      s.ownership == "store" && !HasStore(inv, s.enterpriseKey, s.storeName);
  }

  lemma SingleStoreMeans(r: Resource)
    ensures !SingleStore(r) <==> forall s | OnlyScope(r, s) :: s.ownership != "store"
  {
    if SingleStore(r) {
      assert OnlyScope(r, r.requirement.scopes[0]);
    }
  }

  lemma ResourceExact(inv: Inventory, ix: Index, rules: Rules, r: Resource, code: Code)
    requires IndexOk(inv, ix)
    ensures code in ResourceCodes(ix, rules, r) <==> ResourceDue(inv, rules, r, code)
  {
    ResourceGetsExact(ix, rules, r, code);
    match code
    case ResourceAttributesRequired => AttributedScan(inv, ix, rules, r);
    case ResourceCategoryMismatch => FitsScan(inv, ix, r);
    case SingleStoreRequired => SingleStoreMeans(r);
    case ExactStoreReferenceRequired => ScopesScan(inv, ix, r);
    case DimensionValueRequired => ScopesScan(inv, ix, r);
    case _ =>
  }

  lemma DocumentExact(inv: Inventory, ix: Index, d: Document, code: Code)
    requires IndexOk(inv, ix)
    ensures code in DocumentCodes(ix, d) <==> DocumentDue(inv, d, code)
  {
    if d.kind == Some("structured") {
      var matches := Get(ix.resources.fragments, d.id);
      assert matches != [] ==> matches[0] in inv.resources && IsFragment(matches[0], d.id);
      assert forall r | r in matches :: r in inv.resources && IsFragment(r, d.id);
      assert forall r :: IsFragment(r, d.id) <==> r.kind == "source_fragment" && r.sourceDocument == Some(d.id);
      forall r | r in inv.resources && IsFragment(r, d.id)
        ensures r in matches
        ensures DatasetDiffers(ix, r, d.dataset) <==> d.dataset.None? || !WithKey(inv, r, d.dataset.value, None)
      {
        assert FragmentsOk(inv.resources, ix.resources.fragments);
        if d.dataset.Some? {
          KeyScan(inv, ix, r, d.dataset.value, None);
        }
      }
    } else if d.kind.Some? {
      var k := (d.kind.value, d.id);
      var matches := Get(ix.resources.documents, k);
      assert matches != [] ==> matches[0] in inv.resources && IsOf(matches[0], k);
      assert forall r | r in inv.resources && IsOf(r, k) :: r in matches;
      assert forall r | r in inv.resources :: IsOf(r, k) <==> Some(r.kind) == d.kind && r.document == Some(d.id);
    }
  }

  lemma ReviewExact(inv: Inventory, ix: Index, v: Review, code: Code)
    requires IndexOk(inv, ix)
    ensures code in ReviewCodes(ix, (set e | e in inv.reviewEnterprises), v) <==> ReviewDue(inv, v, code)
  {
    LookIsScan(inv, ix, "store-review:" + v.id);
    var r := Look(ix.resources.reviews, "store-review:" + v.id);
    if r.Some? {
      ReviewMatchesMeans(r.value, v);
    }
    hide ReviewMatches, ForReview;
  }

  lemma CardExact(inv: Inventory, ix: Index, c: CardRecord, code: Code)
    requires IndexOk(inv, ix)
    ensures code in CardCodes(ix, c) <==> CardDue(inv, c, code)
  {
    LookIsScan(inv, ix, "cost-card:" + c.id);
    var r := Look(ix.resources.cards, "cost-card:" + c.id);
    if r.Some? {
      CardMatchesMeans(r.value, c);
    }
    hide CardMatches, ForCard;
  }

  lemma GrantExact(inv: Inventory, ix: Index, rules: Rules, g: Grant, code: Code)
    requires IndexOk(inv, ix)
    ensures code in GrantCodes(ix, rules, inv.categories, g) <==> GrantDue(inv, rules, g, code)
  {
    ValueScan(inv, ix);
    forall d | d in g.dimensions
      ensures Granted(ix, d) <==>
        !(!HasDimension(inv, d.0) || (d.1.Only? && exists v | v in d.1.values :: !HasValue(inv, d.0, v)))
    {
    }
  }

  // ---------------------------------------------------------------- the inspection

  function Tagged(codes: seq<Code>, target: string): (r: seq<Issue>)
    ensures forall x :: x in r <==> x.target == target && x.code in codes
  {
    if codes == [] then [] else [Issue(codes[0], target)] + Tagged(codes[1..], target)
  }

  ghost predicate AdaptersDue(all: seq<string>, adapters: seq<string>, x: Issue) {
    x.code == ReadAdapterNotReady && x.target in all && x.target !in adapters
  }

  ghost predicate KeysDue(inv: Inventory, keys: seq<string>, x: Issue) {
    x.target in keys && KeyDue(inv, x.target, x.code)
  }

  ghost predicate PartitionsDue(inv: Inventory, ids: seq<string>, x: Issue) {
    x.code == PartitionAttributesRequired && x.target in ids
      && !HasKey(inv.resources, "structured", "partition:" + x.target)
  }

  ghost predicate PdfsDue(inv: Inventory, ids: seq<string>, x: Issue) {
    x.code == PdfAttributesRequired && x.target in ids && !HasKey(inv.resources, "ledger_pdf", x.target)
  }

  ghost predicate CategoriesDue(inv: Inventory, cs: seq<Category>, x: Issue) {
    exists c | c in cs :: x.target == c.id && CategoryDue(inv, c, x.code)
  }

  ghost predicate ResourcesDue(inv: Inventory, rules: Rules, rs: seq<Resource>, x: Issue) {
    exists r | r in rs :: x.target == r.id && ResourceDue(inv, rules, r, x.code)
  }

  ghost predicate DocumentsDue(inv: Inventory, ds: seq<Document>, x: Issue) {
    exists d | d in ds :: x.target == d.id && DocumentDue(inv, d, x.code)
  }

  ghost predicate ReviewsDue(inv: Inventory, vs: seq<Review>, x: Issue) {
    exists v | v in vs :: x.target == v.id && ReviewDue(inv, v, x.code)
  }

  ghost predicate CardsDue(inv: Inventory, cs: seq<CardRecord>, x: Issue) {
    exists c | c in cs :: x.target == c.id && CardDue(inv, c, x.code)
  }

  ghost predicate GrantsDue(inv: Inventory, rules: Rules, account: string, gs: seq<Grant>, x: Issue) {
    exists g | g in gs :: x.target == account + "/" + g.id && GrantDue(inv, rules, g, x.code)
  }

  ghost predicate AccountsDue(inv: Inventory, rules: Rules, accounts: seq<Account>, x: Issue) {
    exists a | a in accounts :: GrantsDue(inv, rules, a.id, a.grants, x)
  }

  /** The read adapters a tenant needs. */
  predicate IsAdapter(name: string) {
    || name == "store_review_query" || name == "structured_query" || name == "structured_coverage"
    || name == "partition_catalog" || name == "partition_download" || name == "source_download"
    || name == "evidence_search" || name == "evidence_status" || name == "quarantine_certificate"
    || name == "ledger_pdf" || name == "ledger_download" || name == "document_lifecycle"
    || name == "cost_card_catalog" || name == "cost_card_download" || name == "cost_card_lifecycle"
  }

  /** The keys of the fixed categories. */
  predicate IsFixedKey(key: string) {
    || key == "business" || key == "dishes" || key == "in_store_orders" || key == "takeaway_orders" || key == "vip"
    || key == "dish_catalog" || key == "supplier_catalog" || key == "cost_cards" || key == "store_reviews"
    || key == "delivery_ledger" || key == "quarantine_certificate" || key == "ledger_pdf"
  }

  lemma NamesMean()
    ensures forall name :: name in READ_ADAPTERS <==> IsAdapter(name)
    ensures forall key :: key in FIXED_KEYS <==> IsFixedKey(key)
  {
  }

  /** Everything that is missing from an inventory, item by item. */
  ghost predicate Due(inv: Inventory, rules: Rules, adapters: seq<string>, x: Issue) {
    || (x.code == ReadAdapterNotReady && IsAdapter(x.target) && x.target !in adapters)
    || (IsFixedKey(x.target) && KeyDue(inv, x.target, x.code)) || CategoriesDue(inv, inv.categories, x)
    || ResourcesDue(inv, rules, inv.resources, x) || DocumentsDue(inv, inv.documents, x)
    || PartitionsDue(inv, inv.partitions, x) || ReviewsDue(inv, inv.reviews, x) || CardsDue(inv, inv.cards, x)
    || PdfsDue(inv, inv.pdfs, x) || AccountsDue(inv, rules, inv.accounts, x)
  }

  method InspectAdapters(adapters: seq<string>) returns (missing: seq<Issue>)
    ensures forall x :: x in missing <==> AdaptersDue(READ_ADAPTERS, adapters, x)
  {
    missing := [];
    for i := 0 to |READ_ADAPTERS|
      invariant forall x :: x in missing <==> AdaptersDue(READ_ADAPTERS[..i], adapters, x)
    {
      assert READ_ADAPTERS[..i + 1] == READ_ADAPTERS[..i] + [READ_ADAPTERS[i]];
      if READ_ADAPTERS[i] !in adapters {
        missing := missing + [Issue(ReadAdapterNotReady, READ_ADAPTERS[i])];
      }
    }
    assert READ_ADAPTERS[..|READ_ADAPTERS|] == READ_ADAPTERS;
  }

  method InspectKeys(inv: Inventory, keys: seq<string>) returns (missing: seq<Issue>)
    ensures forall x :: x in missing <==> KeysDue(inv, keys, x)
  {
    missing := [];
    for i := 0 to |keys|
      invariant forall x :: x in missing <==> KeysDue(inv, keys[..i], x)
    {
      var key := keys[i];
      assert keys[..i + 1] == keys[..i] + [key];
      var rule := FirstFixed(inv.categories, key);
      if key == "delivery_ledger" {
        if rule.None? {
          missing := missing + [Issue(InternalCategoryRequired, key)];
        }
      } else if rule.None? || !IsClearance(rule.value.level) {
        missing := missing + [Issue(FixedCategoryClearanceRequired, key)];
      }
    }
    assert keys[..|keys|] == keys;
  }

  method InspectPartitions(inv: Inventory, ix: Index) returns (missing: seq<Issue>)
    requires IndexOk(inv, ix)
    ensures forall x :: x in missing <==> PartitionsDue(inv, inv.partitions, x)
  {
    missing := [];
    for i := 0 to |inv.partitions|
      invariant forall x :: x in missing <==> PartitionsDue(inv, inv.partitions[..i], x)
    {
      var id := inv.partitions[i];
      assert inv.partitions[..i + 1] == inv.partitions[..i] + [id];
      if "partition:" + id !in ix.resources.partitions {
        missing := missing + [Issue(PartitionAttributesRequired, id)];
      }
    }
    assert inv.partitions[..|inv.partitions|] == inv.partitions;
  }

  method InspectPdfs(inv: Inventory, ix: Index) returns (missing: seq<Issue>)
    requires IndexOk(inv, ix)
    ensures forall x :: x in missing <==> PdfsDue(inv, inv.pdfs, x)
  {
    missing := [];
    for i := 0 to |inv.pdfs|
      invariant forall x :: x in missing <==> PdfsDue(inv, inv.pdfs[..i], x)
    {
      var id := inv.pdfs[i];
      assert inv.pdfs[..i + 1] == inv.pdfs[..i] + [id];
      if id !in ix.resources.pdfs {
        missing := missing + [Issue(PdfAttributesRequired, id)];
      }
    }
    assert inv.pdfs[..|inv.pdfs|] == inv.pdfs;
  }

  lemma CategoryExact(inv: Inventory, ix: Index, c: Category, code: Code)
    requires IndexOk(inv, ix)
    ensures code in CategoryCodes(ix, c.requiredDimensions) <==> CategoryDue(inv, c, code)
  {
    ValueScan(inv, ix);
  }

  /** One more item has been looked at. */
  lemma PrefixMore<T>(items: seq<T>, i: nat)
    requires i < |items|
    ensures forall y :: y in items[..i + 1] <==> y in items[..i] || y == items[i]
  {
    assert items[..i + 1] == items[..i] + [items[i]];
  }

  method InspectCategories(inv: Inventory, ix: Index) returns (missing: seq<Issue>)
    requires IndexOk(inv, ix)
    ensures forall x :: x in missing <==> CategoriesDue(inv, inv.categories, x)
  {
    missing := [];
    for i := 0 to |inv.categories|
      invariant forall x :: x in missing <==> CategoriesDue(inv, inv.categories[..i], x)
    {
      var item := inv.categories[i];
      var codes := CategoryCodes(ix, item.requiredDimensions);
      forall x
        ensures CategoriesDue(inv, inv.categories[..i + 1], x) <==>
          CategoriesDue(inv, inv.categories[..i], x) || (x.target == item.id && x.code in codes)
      {
        PrefixMore(inv.categories, i);
        CategoryExact(inv, ix, item, x.code);
      }
      missing := missing + Tagged(codes, item.id);
    }
    assert inv.categories[..|inv.categories|] == inv.categories;
  }

  method InspectResources(inv: Inventory, ix: Index, rules: Rules) returns (missing: seq<Issue>)
    requires IndexOk(inv, ix)
    ensures forall x :: x in missing <==> ResourcesDue(inv, rules, inv.resources, x)
  {
    missing := [];
    for i := 0 to |inv.resources|
      invariant forall x :: x in missing <==> ResourcesDue(inv, rules, inv.resources[..i], x)
    {
      var item := inv.resources[i];
      var codes := ResourceCodes(ix, rules, item);
      forall x
        ensures ResourcesDue(inv, rules, inv.resources[..i + 1], x) <==>
          ResourcesDue(inv, rules, inv.resources[..i], x) || (x.target == item.id && x.code in codes)
      {
        PrefixMore(inv.resources, i);
        ResourceExact(inv, ix, rules, item, x.code);
      }
      missing := missing + Tagged(codes, item.id);
    }
    assert inv.resources[..|inv.resources|] == inv.resources;
  }

  method InspectDocuments(inv: Inventory, ix: Index) returns (missing: seq<Issue>)
    requires IndexOk(inv, ix)
    ensures forall x :: x in missing <==> DocumentsDue(inv, inv.documents, x)
  {
    missing := [];
    for i := 0 to |inv.documents|
      invariant forall x :: x in missing <==> DocumentsDue(inv, inv.documents[..i], x)
    {
      var item := inv.documents[i];
      var codes := DocumentCodes(ix, item);
      forall x
        ensures DocumentsDue(inv, inv.documents[..i + 1], x) <==>
          DocumentsDue(inv, inv.documents[..i], x) || (x.target == item.id && x.code in codes)
      {
        PrefixMore(inv.documents, i);
        DocumentExact(inv, ix, item, x.code);
      }
      missing := missing + Tagged(codes, item.id);
    }
    assert inv.documents[..|inv.documents|] == inv.documents;
  }

  method InspectReviews(inv: Inventory, ix: Index) returns (missing: seq<Issue>)
    requires IndexOk(inv, ix)
    ensures forall x :: x in missing <==> ReviewsDue(inv, inv.reviews, x)
  {
    missing := [];
    for i := 0 to |inv.reviews|
      invariant forall x :: x in missing <==> ReviewsDue(inv, inv.reviews[..i], x)
    {
      var item := inv.reviews[i];
      var codes := ReviewCodes(ix, (set e | e in inv.reviewEnterprises), item);
      forall x
        ensures ReviewsDue(inv, inv.reviews[..i + 1], x) <==>
          ReviewsDue(inv, inv.reviews[..i], x) || (x.target == item.id && x.code in codes)
      {
        PrefixMore(inv.reviews, i);
        ReviewExact(inv, ix, item, x.code);
      }
      missing := missing + Tagged(codes, item.id);
    }
    assert inv.reviews[..|inv.reviews|] == inv.reviews;
  }

  method InspectCards(inv: Inventory, ix: Index) returns (missing: seq<Issue>)
    requires IndexOk(inv, ix)
    ensures forall x :: x in missing <==> CardsDue(inv, inv.cards, x)
  {
    missing := [];
    for i := 0 to |inv.cards|
      invariant forall x :: x in missing <==> CardsDue(inv, inv.cards[..i], x)
    {
      var item := inv.cards[i];
      var codes := CardCodes(ix, item);
      forall x
        ensures CardsDue(inv, inv.cards[..i + 1], x) <==>
          CardsDue(inv, inv.cards[..i], x) || (x.target == item.id && x.code in codes)
      {
        PrefixMore(inv.cards, i);
        CardExact(inv, ix, item, x.code);
      }
      missing := missing + Tagged(codes, item.id);
    }
    assert inv.cards[..|inv.cards|] == inv.cards;
  }

  method InspectGrants(inv: Inventory, ix: Index, rules: Rules, account: Account) returns (missing: seq<Issue>)
    requires IndexOk(inv, ix)
    ensures forall x :: x in missing <==> GrantsDue(inv, rules, account.id, account.grants, x)
  {
    missing := [];
    for i := 0 to |account.grants|
      invariant forall x :: x in missing <==> GrantsDue(inv, rules, account.id, account.grants[..i], x)
    {
      var g := account.grants[i];
      var codes := GrantCodes(ix, rules, inv.categories, g);
      forall x
        ensures GrantsDue(inv, rules, account.id, account.grants[..i + 1], x) <==>
          GrantsDue(inv, rules, account.id, account.grants[..i], x)
            || (x.target == account.id + "/" + g.id && x.code in codes)
      {
        PrefixMore(account.grants, i);
        GrantExact(inv, ix, rules, g, x.code);
      }
      missing := missing + Tagged(codes, account.id + "/" + g.id);
    }
    assert account.grants[..|account.grants|] == account.grants;
  }

  method InspectAccounts(inv: Inventory, ix: Index, rules: Rules) returns (missing: seq<Issue>)
    requires IndexOk(inv, ix)
    ensures forall x :: x in missing <==> AccountsDue(inv, rules, inv.accounts, x)
  {
    missing := [];
    for i := 0 to |inv.accounts|
      invariant forall x :: x in missing <==> AccountsDue(inv, rules, inv.accounts[..i], x)
    {
      var more := InspectGrants(inv, ix, rules, inv.accounts[i]);
      forall x
        ensures AccountsDue(inv, rules, inv.accounts[..i + 1], x) <==> x in missing || x in more
      {
        PrefixMore(inv.accounts, i);
      }
      missing := missing + more;
    }
    assert inv.accounts[..|inv.accounts|] == inv.accounts;
  }

  method BuildIndex(inv: Inventory) returns (ix: Index)
    ensures IndexOk(inv, ix)
  {
    var categories := IndexCategories(inv.categories);
    var dimensions := IndexDimensions(inv.dimensions);
    var resources := IndexResources(inv.resources);
    ix := Index(categories, dimensions, (set s | s in inv.stores), resources);
  }

  datatype Report = Report(ready: bool, missing: seq<Issue>, accountsWithoutGrants: seq<string>)

  function Grantless(accounts: seq<Account>): (r: seq<string>)
    ensures forall id :: id in r <==> exists a | a in accounts :: a.grants == [] && a.id == id
  {
    if accounts == [] then []
    else (if accounts[0].grants == [] then [accounts[0].id] else []) + Grantless(accounts[1..])
  }

  /** `inspectCutoverInventory`: reports exactly what is missing, and is ready exactly when nothing is. */
  method Inspect(inv: Inventory, rules: Rules, adapters: seq<string>) returns (r: Report)
    ensures forall x :: x in r.missing <==> Due(inv, rules, adapters, x)
    ensures r.ready <==> forall x :: !Due(inv, rules, adapters, x)
    ensures forall id :: id in r.accountsWithoutGrants <==> exists a | a in inv.accounts :: a.grants == [] && a.id == id
  {
    var ix := BuildIndex(inv);
    var adapterIssues := InspectAdapters(adapters);
    var keyIssues := InspectKeys(inv, FIXED_KEYS);
    var categoryIssues := InspectCategories(inv, ix);
    var resourceIssues := InspectResources(inv, ix, rules);
    var documentIssues := InspectDocuments(inv, ix);
    var partitionIssues := InspectPartitions(inv, ix);
    var reviewIssues := InspectReviews(inv, ix);
    var cardIssues := InspectCards(inv, ix);
    var pdfIssues := InspectPdfs(inv, ix);
    var accountIssues := InspectAccounts(inv, ix, rules);
    var missing := adapterIssues + keyIssues + categoryIssues + resourceIssues + documentIssues + partitionIssues
      + reviewIssues + cardIssues + pdfIssues + accountIssues;
    NamesMean();
    assert missing != [] ==> missing[0] in missing;
    r := Report(missing == [], missing, Grantless(inv.accounts));
  }

  /** A ready tenant is covered: nothing it holds is without its resource, and nothing names a store or value
      it lacks. */
  lemma ReadyMeansCovered(inv: Inventory, rules: Rules, adapters: seq<string>)
    requires forall x :: !Due(inv, rules, adapters, x)
    ensures forall d | d in inv.documents :: exists r | r in inv.resources ::
      if d.kind == Some("structured") then IsFragment(r, d.id) else Some(r.kind) == d.kind && r.document == Some(d.id)
    ensures forall id | id in inv.partitions :: HasKey(inv.resources, "structured", "partition:" + id)
    ensures forall id | id in inv.pdfs :: HasKey(inv.resources, "ledger_pdf", id)
    ensures forall v | v in inv.reviews :: HasKey(inv.resources, "store_review", "store-review:" + v.id)
    ensures forall c | c in inv.cards :: HasKey(inv.resources, "cost_card", "cost-card:" + c.id)
  {
    forall d | d in inv.documents
      ensures exists r | r in inv.resources ::
        if d.kind == Some("structured") then IsFragment(r, d.id) else Some(r.kind) == d.kind && r.document == Some(d.id)
    {
      var x := Issue(if d.kind == Some("structured") then SourceLineageRequired else DocumentAttributesRequired, d.id);
      assert !Due(inv, rules, adapters, x);
      assert !DocumentDue(inv, d, x.code);
    }
    forall id | id in inv.partitions
      ensures HasKey(inv.resources, "structured", "partition:" + id)
    {
      assert !Due(inv, rules, adapters, Issue(PartitionAttributesRequired, id));
    }
    forall id | id in inv.pdfs
      ensures HasKey(inv.resources, "ledger_pdf", id)
    {
      assert !Due(inv, rules, adapters, Issue(PdfAttributesRequired, id));
    }
    forall v | v in inv.reviews
      ensures HasKey(inv.resources, "store_review", "store-review:" + v.id)
    {
      assert !Due(inv, rules, adapters, Issue(StoreReviewAttributesRequired, v.id));
      assert !ReviewDue(inv, v, StoreReviewAttributesRequired);
      LastResourceFits(inv.resources, "store_review", "store-review:" + v.id);
    }
    forall c | c in inv.cards
      ensures HasKey(inv.resources, "cost_card", "cost-card:" + c.id)
    {
      assert !Due(inv, rules, adapters, Issue(CostCardAttributesRequired, c.id));
      assert !CardDue(inv, c, CostCardAttributesRequired);
      LastResourceFits(inv.resources, "cost_card", "cost-card:" + c.id);
    }
  }

  /** And every store and dimension value that a scope or a grant names exists. */
  lemma ReadyNamesExist(inv: Inventory, rules: Rules, adapters: seq<string>)
    requires forall x :: !Due(inv, rules, adapters, x)
    ensures forall r, s | r in inv.resources && s in r.requirement.scopes ::
      && (s.ownership == "store" ==> HasStore(inv, s.enterpriseKey, s.storeName))
      && forall d | d in s.dimensions :: HasValue(inv, d.0, d.1)
    ensures forall a, g | a in inv.accounts && g in a.grants ::
      && (g.stores.Some? && g.stores.value.Only? ==>
        forall n | n in g.stores.value.values :: HasStore(inv, g.enterpriseKey, Some(n)))
      && forall d | d in g.dimensions ::
           HasDimension(inv, d.0) && (d.1.Only? ==> forall v | v in d.1.values :: HasValue(inv, d.0, v))
  {
    forall r, s | r in inv.resources && s in r.requirement.scopes
      ensures s.ownership == "store" ==> HasStore(inv, s.enterpriseKey, s.storeName)
      ensures forall d | d in s.dimensions :: HasValue(inv, d.0, d.1)
    {
      NotResourceDue(inv, rules, adapters, r, ExactStoreReferenceRequired);
      NotResourceDue(inv, rules, adapters, r, DimensionValueRequired);
    }
    forall a, g | a in inv.accounts && g in a.grants
      ensures g.stores.Some? && g.stores.value.Only? ==>
        forall n | n in g.stores.value.values :: HasStore(inv, g.enterpriseKey, Some(n))
      ensures forall d | d in g.dimensions ::
        HasDimension(inv, d.0) && (d.1.Only? ==> forall v | v in d.1.values :: HasValue(inv, d.0, v))
    {
      NotGrantDue(inv, rules, adapters, a, g, ExactStoreReferenceRequired);
      NotGrantDue(inv, rules, adapters, a, g, GrantDimensionRequired);
    }
  }

  lemma NotResourceDue(inv: Inventory, rules: Rules, adapters: seq<string>, r: Resource, code: Code)
    requires (forall x :: !Due(inv, rules, adapters, x)) && r in inv.resources
    ensures !ResourceDue(inv, rules, r, code)
  {
    assert !Due(inv, rules, adapters, Issue(code, r.id));
    assert !ResourcesDue(inv, rules, inv.resources, Issue(code, r.id));
  }

  lemma NotGrantDue(inv: Inventory, rules: Rules, adapters: seq<string>, a: Account, g: Grant, code: Code)
    requires (forall x :: !Due(inv, rules, adapters, x)) && a in inv.accounts && g in a.grants
    ensures !GrantDue(inv, rules, g, code)
  {
    var x := Issue(code, a.id + "/" + g.id);
    assert !Due(inv, rules, adapters, x);
    assert !AccountsDue(inv, rules, inv.accounts, x);
    assert !GrantsDue(inv, rules, a.id, a.grants, x);
  }
}
