/** The cost-card manifest: an optimistic read, sign and re-read against a store that changes meanwhile. */
module CostCards {
  import opened Options

  datatype Error = LimitInvalid | AccessDenied | TooLarge | SchemaUnsupported | MetadataInvalid | Changed | Unavailable

  datatype Result<+T> = Ok(value: T) | Err(error: Error)

  type CardId = string

  /** `details` stands for the descriptive fields that are copied through. */
  datatype Card = Card(
    id: CardId, revision: nat, archived: bool, namespace: string, schema: int, rows: int, bytes: int, details: string,
    objectKey: string)

  /** The database at one moment, seen by one employee: the cards in id order, and the authorization with its
      version. */
  datatype Store = Store(version: nat, enabled: bool, allows: Card -> bool, cards: seq<Card>)

  /** The requested ids, if any were listed, and the other conditions. */
  datatype Selection = Selection(ids: Option<seq<CardId>>, matches: Card -> bool)

  datatype Snapshot = Snapshot(version: nat, cards: seq<Card>)

  const MAX_TTL_SECONDS := 900
  const SCHEMA_VERSION := 1
  const MAX_SAFE := 9007199254740991

  // ---------------------------------------------------------------- reading

  predicate Visible(s: Store, sel: Selection, c: Card) {
    && !c.archived && s.allows(c) && sel.matches(c)
    && (sel.ids.Some? ==> c.id in sel.ids.value)
  }

  function Listed(s: Store, sel: Selection, cards: seq<Card>): seq<Card> {
    if cards == [] then []
    else if Visible(s, sel, cards[0]) then [cards[0]] + Listed(s, sel, cards[1..])
    else Listed(s, sel, cards[1..])
  }

  function IdsOf(cards: seq<Card>): set<CardId> { set c | c in cards :: c.id }

  /** `readSnapshot`: all visible selected cards, or a refusal. */
  function Read(s: Store, sel: Selection, max: nat): Result<Snapshot> {
    if !s.enabled then Err(AccessDenied)
    else
      var cards := Listed(s, sel, s.cards);
      if |cards| > max then Err(TooLarge)
      else if sel.ids.Some? && exists id | id in sel.ids.value :: id !in IdsOf(cards) then Err(AccessDenied)
      else Ok(Snapshot(s.version, cards))
  }

  lemma {:induction false} ListedExact(s: Store, sel: Selection, cards: seq<Card>, c: Card)
    ensures c in Listed(s, sel, cards) <==> c in cards && Visible(s, sel, c)
  {
    if cards != [] {
      ListedExact(s, sel, cards[1..], c);
      assert cards == [cards[0]] + cards[1..];
    }
  }

  /** What a successful read promises of the store it saw. */
  lemma ReadIsSound(s: Store, sel: Selection, max: nat, c: Card)
    requires Read(s, sel, max).Ok?
    ensures var snap := Read(s, sel, max).value;
      && snap.version == s.version && s.enabled && |snap.cards| <= max
      && (c in snap.cards <==> c in s.cards && MaySee(s, sel, c))
  {
    ListedExact(s, sel, s.cards, c);
  }

  /** The card is not archived, the employee may read it, and it is asked for: by id, if ids are listed,
      and by the other conditions. */
  predicate MaySee(s: Store, sel: Selection, c: Card) {
    && !c.archived && s.allows(c) && sel.matches(c)
    && (sel.ids.None? || exists i | 0 <= i < |sel.ids.value| :: sel.ids.value[i] == c.id)
  }

  /** The places of the table whose cards are to be read. */
  ghost function Seen(s: Store, sel: Selection, cards: seq<Card>): set<nat> {
    set i: nat | i < |cards| && MaySee(s, sel, cards[i])
  }

  lemma {:induction false} ListedCounted(s: Store, sel: Selection, cards: seq<Card>)
    ensures |Listed(s, sel, cards)| == |Seen(s, sel, cards)|
  {
    if cards == [] {
      assert Seen(s, sel, cards) == {};
    } else {
      ListedCounted(s, sel, cards[1..]);
      var later := set i: nat | i < |cards| && i > 0 && MaySee(s, sel, cards[i]);
      Shifted(later, Seen(s, sel, cards[1..]));
      assert Seen(s, sel, cards) == if MaySee(s, sel, cards[0]) then later + {0} else later;
    }
  }

  lemma {:induction false} Shifted(later: set<nat>, shifted: set<nat>)
    requires forall i :: i in later ==> i > 0
    requires forall i: nat :: i in shifted <==> i + 1 in later
    ensures |later| == |shifted|
  {
    if later == {} {
      assert shifted == {};
    } else {
      var i :| i in later;
      Shifted(later - {i}, shifted - {i - 1});
    }
  }

  /** When a read is refused: the employee is disabled, too many cards are asked for, or one that is
      asked for by id is not to be seen. */
  lemma ReadRefuses(s: Store, sel: Selection, max: nat)
    ensures var r, n := Read(s, sel, max), |Seen(s, sel, s.cards)|;
      var missing := sel.ids.Some? && exists id | id in sel.ids.value ::
        forall c | c in s.cards && c.id == id :: !MaySee(s, sel, c);
      && (r == Err(TooLarge) <==> s.enabled && n > max)
      && (r == Err(AccessDenied) <==> !s.enabled || (n <= max && missing))
      && (r.Ok? <==> s.enabled && n <= max && !missing)
  {
    ListedCounted(s, sel, s.cards);
    var cards := Listed(s, sel, s.cards);
    forall id
      ensures id in IdsOf(cards) <==> exists c | c in s.cards && c.id == id :: MaySee(s, sel, c)
    {
      if id in IdsOf(cards) {
        var c :| c in cards && c.id == id;
        ListedExact(s, sel, s.cards, c);
      }
      if c :| c in s.cards && c.id == id && MaySee(s, sel, c) {
        ListedExact(s, sel, s.cards, c);
      }
    }
  }

  // ---------------------------------------------------------------- fixed fields

  datatype Fields = Fields(id: CardId, revision: nat, schema: int, rows: int, bytes: int, details: string)

  datatype Fixed = Fixed(fields: Fields, objectKey: string)

  predicate Safe(n: int) { 0 <= n <= MAX_SAFE }

  function FixedCard(c: Card): Result<Fixed> {
    if c.namespace != "meituan" || c.schema != SCHEMA_VERSION then Err(SchemaUnsupported)
    else if !Safe(c.rows) || !Safe(c.bytes) then Err(MetadataInvalid)
    else Ok(Fixed(Fields(c.id, c.revision, c.schema, c.rows, c.bytes, c.details), c.objectKey))
  }

  /** `fixedCards`: the first card that does not fit decides the error. */
  function FixedCards(cards: seq<Card>): (r: Result<seq<Fixed>>)
    ensures r.Ok? ==> |r.value| == |cards| && forall i | 0 <= i < |cards| :: FixedCard(cards[i]) == Ok(r.value[i])
    ensures r.Ok? <==> forall i | 0 <= i < |cards| :: FixedCard(cards[i]).Ok?
  {
    if cards == [] then Ok([])
    else
      var first := FixedCard(cards[0]);
      if first.Err? then Err(first.error)
      else
        var rest := FixedCards(cards[1..]);
        assert forall i | 1 <= i < |cards| :: cards[i] == cards[1..][i - 1];
        assert forall i | 0 <= i < |cards[1..]| :: cards[1..][i] == cards[i + 1];
        if rest.Err? then rest else Ok([first.value] + rest.value)
  }

  /** A card fits the manifest: of the supported kind, with counts that are safe integers. */
  predicate Fits(c: Card) {
    c.namespace == "meituan" && c.schema == 1 && 0 <= c.rows <= 9007199254740991 && 0 <= c.bytes <= 9007199254740991
  }

  lemma FixedCardMeans(c: Card)
    ensures FixedCard(c).Ok? <==> Fits(c)
    ensures FixedCard(c) == Err(SchemaUnsupported) <==> c.namespace != "meituan" || c.schema != 1
    ensures FixedCard(c).Err? ==> FixedCard(c).error == SchemaUnsupported || FixedCard(c).error == MetadataInvalid
  {
  }

  /** The first card that does not fit decides the error of a list. */
  lemma {:induction false} FixedCardsRefuse(cards: seq<Card>, i: nat)
    requires i < |cards| && !Fits(cards[i]) && forall j | 0 <= j < i :: Fits(cards[j])
    ensures FixedCards(cards) ==
      Err(if cards[i].namespace != "meituan" || cards[i].schema != 1 then SchemaUnsupported else MetadataInvalid)
  {
    if i > 0 {
      assert Fits(cards[0]);
      FixedCardsRefuse(cards[1..], i - 1);
    }
  }

  // ---------------------------------------------------------------- expiry

  /** A signed URL: the object it is for, the name it is saved under and the lifetime asked for; the
      query parameters that state its expiry; and the instant until which the storage really honours
      it, which the service cannot see. */
  datatype Url = Url(
    key: string, fileName: string, lifetime: int, expires: string, amzDate: string, amzSeconds: string,
    validUntil: int)

  datatype Expiry = Known(at: int) | Unknown | Invalid

  predicate Digits(s: string) { s != "" && forall i | 0 <= i < |s| :: '0' <= s[i] <= '9' }

  function Number(s: string): (n: nat)
    requires forall i | 0 <= i < |s| :: '0' <= s[i] <= '9'
  {
    if s == "" then 0 else Number(s[..|s| - 1]) * 10 + (s[|s| - 1] as int - '0' as int)
  }

  predicate AmzDate(s: string) {
    |s| == 16 && Digits(s[..8]) && s[8] == 'T' && Digits(s[9..15]) && s[15] == 'Z'
  }

  /** `actualDownloadExpiry`; an absent parameter is empty, and `instant` reads a date. */
  function ActualExpiry(u: Url, instant: string -> Option<int>): Expiry {
    if Digits(u.expires) then Known(Number(u.expires) * 1000)
    else if AmzDate(u.amzDate) && Digits(u.amzSeconds) then
      match instant(u.amzDate)
      case None => Invalid
      case Some(t) => Known(t + Number(u.amzSeconds) * 1000)
    else Unknown
  }

  function WholeSecond(ms: int): (r: int)
    ensures r <= ms < r + 1000 && r % 1000 == 0
  {
    ms / 1000 * 1000
  }

  /** The URL states its expiry by `Expires`, in seconds, or else by a date and a number of seconds from it. */
  predicate States(u: Url, instant: string -> Option<int>, at: int) {
    if Digits(u.expires) then at == Number(u.expires) * 1000
    else
      && AmzDate(u.amzDate) && Digits(u.amzSeconds) && instant(u.amzDate).Some?
      && at == instant(u.amzDate).value + Number(u.amzSeconds) * 1000
  }

  predicate StatesNothing(u: Url) { !Digits(u.expires) && !(AmzDate(u.amzDate) && Digits(u.amzSeconds)) }

  lemma ExpiryMeans(u: Url, instant: string -> Option<int>, at: int)
    ensures ActualExpiry(u, instant) == Known(at) <==> States(u, instant, at)
    ensures ActualExpiry(u, instant) == Unknown <==> StatesNothing(u)
  {
  }

  /** Decimal notation: a digit on its own, and one more digit behind a number. */
  lemma NumberMeans(s: string, d: char)
    requires (forall i | 0 <= i < |s| :: '0' <= s[i] <= '9') && '0' <= d <= '9'
    ensures Number([]) == 0 && Number("9") == 9
    ensures Number(s + [d]) == 10 * Number(s) + (d as int - 48)
  {
    assert (s + [d])[..|s|] == s;
    assert "9"[..0] == [];
  }

  /** The storage honours a URL until the expiry it states, or for the asked time after signing. */
  ghost predicate Honest(u: Url, instant: string -> Option<int>, signed: int, ttl: int) {
    && (forall at | States(u, instant, at) :: at <= u.validUntil)
    && (StatesNothing(u) ==> WholeSecond(signed) + ttl * 1000 <= u.validUntil)
  }

  // ---------------------------------------------------------------- the changing world

  /** Everything outside the service, moving on its own between any two of its steps. */
  class World {
    const store: nat -> Store
    const clock: nat -> int
    const instant: string -> Option<int>
    var tick: nat

    constructor (store: nat -> Store, clock: nat -> int, instant: string -> Option<int>)
      ensures this.store == store && this.clock == clock && this.instant == instant
    {
      this.store, this.clock, this.instant, this.tick := store, clock, instant, 0;
    }

    ghost predicate Monotone() { forall t: nat, u: nat | t <= u :: clock(t) <= clock(u) }

    method Elapse()
      modifies this
      ensures tick >= old(tick)
    {
      var d :| 0 <= d;
      tick := tick + d;
    }

    method Now() returns (ms: int)
      modifies this
      ensures tick >= old(tick) && ms == clock(tick)
    {
      Elapse();
      ms := clock(tick);
    }

    method ReadSnapshot(sel: Selection, max: nat) returns (r: Result<Snapshot>)
      modifies this
      ensures tick >= old(tick) && (r == Read(store(tick), sel, max) || r == Err(Unavailable))
    {
      Elapse();
      var reachable: bool := *;
      r := if reachable then Read(store(tick), sel, max) else Err(Unavailable);
    }

    /** Any honest URL, or a failure. */
    method Sign(key: string, fileName: string, ttl: int) returns (r: Option<Url>)
      modifies this
      ensures tick >= old(tick) && (r.Some? ==> Honest(r.value, instant, clock(tick), ttl))
      ensures r.Some? ==> r.value.key == key && r.value.fileName == fileName && r.value.lifetime == ttl
    {
      Elapse();
      var u: Url := *;
      u := u.(key := key, fileName := fileName, lifetime := ttl);
      var honest := match ActualExpiry(u, instant)
        case Known(at) => at <= u.validUntil
        case Unknown => WholeSecond(clock(tick)) + ttl * 1000 <= u.validUntil
        case Invalid => true;
      if honest {
        forall at
          ensures ActualExpiry(u, instant) == Known(at) <==> States(u, instant, at)
        {
          ExpiryMeans(u, instant, at);
        }
        ExpiryMeans(u, instant, 0);
      }
      r := if honest then Some(u) else None;
    }
  }

  datatype Entry = Entry(fields: Fields, url: Url)

  datatype Manifest = Manifest(expiresAt: int, count: nat, rows: int, cards: seq<Entry>)

  function Rows(cards: seq<Entry>): int {
    if cards == [] then 0 else Rows(cards[..|cards| - 1]) + cards[|cards| - 1].fields.rows
  }

  datatype Service = Service(selection: Selection, max: nat, ttl: int)

  function Ttl(urlTtlSeconds: int): int { if urlTtlSeconds < MAX_TTL_SECONDS then urlTtlSeconds else MAX_TTL_SECONDS }

  /** `createCostCardService`: the limits must be positive. */
  function CreateService(selection: Selection, maxCards: int, urlTtlSeconds: int): (r: Result<Service>)
    ensures r.Ok? <==> maxCards >= 1 && maxCards <= MAX_SAFE && urlTtlSeconds >= 1
    ensures r.Ok? ==> r.value.ttl == if urlTtlSeconds < 900 then urlTtlSeconds else 900
    ensures r.Ok? ==> r.value.selection == selection && r.value.max == maxCards
  {
    var ttl := Ttl(urlTtlSeconds);
    if ttl < 1 || maxCards < 1 || maxCards > MAX_SAFE then Err(LimitInvalid) else Ok(Service(selection, maxCards, ttl))
  }

  /** The expiry is no lower than it has to be: one of the bounds is met. */
  ghost predicate Attained(
    expiresAt: int, ceiling: int, starts: seq<int>, cards: seq<Entry>, ttl: int, instant: string -> Option<int>)
    requires |starts| == |cards|
  {
    || expiresAt == ceiling
    || exists i | 0 <= i < |cards| ::
         expiresAt == starts[i] + ttl * 1000 || States(cards[i].url, instant, expiresAt)
  }

  /** The entry has a card's own fields and a URL for that card's own object. */
  predicate SignedFor(entry: Entry, fixed: Fixed, ttl: int) {
    && entry.fields == fixed.fields && entry.url.key == fixed.objectKey
    && entry.url.fileName == fixed.fields.id + ".csv" && entry.url.lifetime == ttl
  }

  /** Signs one URL and lowers the expiry to what it allows. */
  method SignOne(w: World, key: string, fileName: string, ttl: int, expiresAt: int)
    returns (r: Result<Url>, least: int, ghost started: int)
    requires w.Monotone()
    modifies w
    ensures w.tick >= old(w.tick)
    ensures r.Ok? ==> r.value.key == key && r.value.fileName == fileName && r.value.lifetime == ttl
    ensures r.Ok? ==> least <= expiresAt && least <= r.value.validUntil && least <= started + ttl * 1000
    ensures r.Ok? ==> least == expiresAt || least == started + ttl * 1000 || States(r.value, w.instant, least)
    ensures exists t | old(w.tick) <= t <= w.tick :: started == WholeSecond(w.clock(t))
    ensures r.Err? ==> r.error == Changed || r.error == Unavailable
  {
    var now := w.Now();
    ghost var asked := w.tick;
    least, started := Least(expiresAt, WholeSecond(now) + ttl * 1000), WholeSecond(now);
    var url := w.Sign(key, fileName, ttl);
    assert w.clock(asked) <= w.clock(w.tick);
    if url.None? {
      return Err(Unavailable), least, started;
    }
    forall at
      ensures ActualExpiry(url.value, w.instant) == Known(at) <==> States(url.value, w.instant, at)
    {
      ExpiryMeans(url.value, w.instant, at);
    }
    ExpiryMeans(url.value, w.instant, 0);
    match ActualExpiry(url.value, w.instant) {
      case Invalid => r := Err(Changed);
      case Unknown => r := Ok(url.value);
      case Known(at) => r, least := Ok(url.value), Least(least, at);
    }
  }

  /** Signs a URL for each card, lowering the expiry to what every URL allows. */
  method SignAll(w: World, fixed: seq<Fixed>, ttl: int, ceiling: int)
    returns (r: Result<(seq<Entry>, int)>, ghost starts: seq<int>)
    requires w.Monotone()
    modifies w
    ensures w.tick >= old(w.tick)
    ensures r.Ok? ==> |r.value.0| == |fixed| && forall i | 0 <= i < |fixed| :: SignedFor(r.value.0[i], fixed[i], ttl)
    ensures r.Ok? ==> r.value.1 <= ceiling && forall i | 0 <= i < |fixed| :: r.value.1 <= r.value.0[i].url.validUntil
    ensures r.Ok? ==> |starts| == |fixed| && Attained(r.value.1, ceiling, starts, r.value.0, ttl, w.instant)
    ensures r.Ok? ==> forall i | 0 <= i < |fixed| :: r.value.1 <= starts[i] + ttl * 1000
    ensures r.Err? ==> r.error == Changed || r.error == Unavailable
  {
    var expiresAt := ceiling;
    var cards: seq<Entry> := [];
    starts := [];
    var i := 0;
    while i < |fixed|
      invariant 0 <= i <= |fixed| && w.tick >= old(w.tick)
      invariant |cards| == i && forall j | 0 <= j < i :: SignedFor(cards[j], fixed[j], ttl)
      invariant |starts| == i && Attained(expiresAt, ceiling, starts, cards, ttl, w.instant)
      invariant expiresAt <= ceiling && forall j | 0 <= j < i :: expiresAt <= cards[j].url.validUntil
      invariant forall j | 0 <= j < i :: expiresAt <= starts[j] + ttl * 1000
    {
      var url, least, started := SignOne(w, fixed[i].objectKey, fixed[i].fields.id + ".csv", ttl, expiresAt);
      if url.Err? {
        return Err(url.error), starts;
      }
      var entry := Entry(fixed[i].fields, url.value);
      AttainedGrows(expiresAt, least, ceiling, starts, started, cards, entry, ttl, w.instant);
      cards, starts, expiresAt := cards + [entry], starts + [started], least;
      i := i + 1;
    }
    r := Ok((cards, expiresAt));
  }

  lemma AttainedGrows(
    expiresAt: int, least: int, ceiling: int, starts: seq<int>, started: int, cards: seq<Entry>, entry: Entry, ttl: int,
    instant: string -> Option<int>)
    requires |starts| == |cards| && Attained(expiresAt, ceiling, starts, cards, ttl, instant)
    requires least == expiresAt || least == started + ttl * 1000 || States(entry.url, instant, least)
    ensures Attained(least, ceiling, starts + [started], cards + [entry], ttl, instant)
  {
    var ss, cs := starts + [started], cards + [entry];
    if least == expiresAt {
      if least != ceiling {
        var i :| 0 <= i < |cards| &&
          (expiresAt == starts[i] + ttl * 1000 || States(cards[i].url, instant, expiresAt));
        assert ss[i] == starts[i] && cs[i] == cards[i];
      }
    } else {
      assert ss[|cards|] == started && cs[|cards|] == entry;
    }
  }

  function Least(a: int, b: int): int { if a < b then a else b }

  /** A run's moments and what it saw at them; what it did not come to keeps its default. */
  datatype Run = Run(
    first: nat, one: Result<Snapshot>, issue: nat, signed: Result<(seq<Entry>, int)>,
    starts: seq<int>, second: nat, two: Result<Snapshot>, final: nat, now: int)

  const IDLE := Run(0, Err(Unavailable), 0, Err(Unavailable), [], 0, Err(Unavailable), 0, 0)

  /** The reason a run fails with an error: the first of its steps that did not go well. */
  ghost predicate Because(service: Service, run: Run, e: Error) {
    if run.one.Err? then e == run.one.error
    else if FixedCards(run.one.value.cards).Err? then e == FixedCards(run.one.value.cards).error
    else if |run.one.value.cards| > service.max then e == TooLarge
    else if run.signed.Err? then e == run.signed.error
    else if run.two.Err? then e == if run.two.error in {AccessDenied, TooLarge} then Changed else run.two.error
    else if run.two.value.version != run.one.value.version then e == Changed
    else if FixedCards(run.two.value.cards).Err? then e == FixedCards(run.two.value.cards).error
    else if FixedCards(run.two.value.cards) != FixedCards(run.one.value.cards) || run.now >= run.signed.value.1 then
      e == Changed
    else e == MetadataInvalid && !Safe(Rows(run.signed.value.0))
  }

  /** An entry shows a card: field by field, with a URL for its own object under its own name. */
  predicate ShowsCard(entry: Entry, c: Card, ttl: int) {
    && entry.fields.id == c.id && entry.fields.revision == c.revision && entry.fields.schema == c.schema
    && entry.fields.rows == c.rows && entry.fields.bytes == c.bytes && entry.fields.details == c.details
    && entry.url.key == c.objectKey && entry.url.fileName == c.id + ".csv" && entry.url.lifetime == ttl
  }

  /** A manifest shows exactly the store of both reads, under one authorization: place by place, the
      card of either read, all of which fit. */
  ghost predicate Consistent(before: Store, after: Store, service: Service, m: Manifest) {
    var one, two := Read(before, service.selection, service.max), Read(after, service.selection, service.max);
    && one.Ok? && two.Ok? && one.value.version == two.value.version
    && m.count == |m.cards| == |one.value.cards| == |two.value.cards|
    && forall i | 0 <= i < |m.cards| ::
         && Fits(one.value.cards[i]) && Fits(two.value.cards[i])
         && ShowsCard(m.cards[i], one.value.cards[i], service.ttl)
         && ShowsCard(m.cards[i], two.value.cards[i], service.ttl)
  }

  lemma {:induction false} SignedShows(cards: seq<Card>, entries: seq<Entry>, ttl: int)
    requires FixedCards(cards).Ok? && |entries| == |cards|
    requires forall i | 0 <= i < |cards| :: SignedFor(entries[i], FixedCards(cards).value[i], ttl)
    ensures forall i | 0 <= i < |cards| :: Fits(cards[i]) && ShowsCard(entries[i], cards[i], ttl)
  {
    forall i | 0 <= i < |cards|
      ensures Fits(cards[i]) && ShowsCard(entries[i], cards[i], ttl)
    {
      assert FixedCard(cards[i]) == Ok(FixedCards(cards).value[i]);
    }
  }

  /** `createCostCardManifest`. */
  method CreateManifest(w: World, service: Service) returns (r: Result<Manifest>, ghost run: Run)
    requires w.Monotone()
    modifies w
    ensures r.Ok? ==> old(w.tick) <= run.first <= run.issue <= run.second <= run.final <= w.tick
    ensures r.Ok? ==> Consistent(w.store(run.first), w.store(run.second), service, r.value)
    ensures r.Ok? ==> forall i | 0 <= i < |r.value.cards| :: r.value.expiresAt <= r.value.cards[i].url.validUntil
    ensures r.Ok? ==> w.clock(run.final) < r.value.expiresAt <= WholeSecond(w.clock(run.issue)) + service.ttl * 1000
    ensures r.Ok? ==> |run.starts| == |r.value.cards| && Attained(r.value.expiresAt,
      WholeSecond(w.clock(run.issue)) + service.ttl * 1000, run.starts, r.value.cards, service.ttl, w.instant)
    ensures r.Ok? ==> r.value.rows == Rows(r.value.cards) && Safe(r.value.rows)
    ensures r.Err? ==> Because(service, run, r.error)
    ensures run.one in {Read(w.store(run.first), service.selection, service.max), Err(Unavailable)}
    ensures run.two in {Read(w.store(run.second), service.selection, service.max), Err(Unavailable)}
  {
    hide Read, Attained, Rows, SignedFor, ShowsCard, Fits;
    run := IDLE;
    var first := w.ReadSnapshot(service.selection, service.max);
    run := run.(first := w.tick, one := first);
    if first.Err? {
      return Err(first.error), run;
    }
    var fixed := FixedCards(first.value.cards);
    if fixed.Err? {
      return Err(fixed.error), run;
    }
    if |fixed.value| > service.max {
      return Err(TooLarge), run;
    }
    var now := w.Now();
    run := run.(issue := w.tick);
    var signed, starts := SignAll(w, fixed.value, service.ttl, WholeSecond(now) + service.ttl * 1000);
    run := run.(signed := signed, starts := starts);
    if signed.Err? {
      return Err(signed.error), run;
    }
    var (cards, expiresAt) := signed.value;
    var second := w.ReadSnapshot(service.selection, service.max);
    run := run.(second := w.tick, two := second);
    if second.Err? {
      return Err(if second.error == AccessDenied || second.error == TooLarge then Changed else second.error), run;
    }
    if second.value.version != first.value.version {
      return Err(Changed), run;
    }
    var again := FixedCards(second.value.cards);
    if again.Err? {
      return Err(again.error), run;
    }
    if again.value != fixed.value {
      return Err(Changed), run;
    }
    now := w.Now();
    run := run.(final := w.tick, now := now);
    if now >= expiresAt {
      return Err(Changed), run;
    }
    var rows := SumRows(cards);
    if !Safe(rows) {
      return Err(MetadataInvalid), run;
    }
    SignedShows(first.value.cards, cards, service.ttl);
    SignedShows(second.value.cards, cards, service.ttl);
    r := Ok(Manifest(expiresAt, |cards|, rows, cards));
  }

  /** The total is the sum of the entries' row counts. */
  lemma RowsAdd(cards: seq<Entry>, more: Entry)
    ensures Rows([]) == 0 && Rows(cards + [more]) == Rows(cards) + more.fields.rows
  {
    assert (cards + [more])[..|cards|] == cards;
  }

  method SumRows(cards: seq<Entry>) returns (rows: int)
    ensures rows == Rows(cards)
  {
    rows := 0;
    var i := 0;
    while i < |cards|
      invariant 0 <= i <= |cards| && rows == Rows(cards[..i])
    {
      assert cards[..i + 1][..i] == cards[..i];
      rows := rows + cards[i].fields.rows;
      i := i + 1;
    }
    assert cards[..i] == cards;
  }

  // ---------------------------------------------------------------- nothing changed in between

  ghost predicate Holds(s: Store, id: CardId) { exists c | c in s.cards :: c.id == id }

  /** Versions only grow, and nothing changes without one: an authorization version
      stands for one authorization, a card's revision for one content; an id that is
      gone does not come back. */
  ghost predicate OnlyGrows(store: nat -> Store) {
    && (forall t: nat, u: nat | t <= u :: SameOrLaterAuthorization(store(t), store(u)))
    && (forall t: nat, u: nat | t <= u :: LaterCards(store(t), store(u)))
    && (forall t: nat, v: nat, u: nat, id: CardId | t <= v <= u && Holds(store(t), id) && Holds(store(u), id) ::
      Holds(store(v), id))
  }

  ghost predicate SameOrLaterAuthorization(s: Store, later: Store) {
    && s.version <= later.version
    && (s.version == later.version ==> s.enabled == later.enabled && s.allows == later.allows)
  }

  ghost predicate LaterCards(s: Store, later: Store) {
    forall c, d | c in s.cards && d in later.cards && c.id == d.id ::
      c.revision <= d.revision && (c.revision == d.revision ==> c == d)
  }

  /** A card of both ends with one revision is there, the same, at every moment between. */
  lemma CardStays(store: nat -> Store, t: nat, v: nat, u: nat, c: Card, d: Card)
    requires OnlyGrows(store) && t <= v <= u
    requires c in store(t).cards && d in store(u).cards && c.id == d.id && c.revision == d.revision
    ensures c == d && c in store(v).cards
  {
    assert Holds(store(t), c.id) && Holds(store(u), c.id);
    assert Holds(store(v), c.id);
    var x :| x in store(v).cards && x.id == c.id;
    assert LaterCards(store(t), store(v)) && LaterCards(store(v), store(u)) && LaterCards(store(t), store(u));
  }

  lemma AuthorizationStays(store: nat -> Store, t: nat, v: nat, u: nat)
    requires OnlyGrows(store) && t <= v <= u && store(t).version == store(u).version
    ensures store(v).version == store(u).version && store(v).enabled == store(u).enabled
    ensures store(v).allows == store(u).allows
  {
    assert SameOrLaterAuthorization(store(t), store(v)) && SameOrLaterAuthorization(store(v), store(u));
  }

  /** Each entry of a consistent manifest is one card that was stored, unarchived,
      selected and authorized, with these same fields, at every moment between the
      two reads. */
  lemma EntryStays(store: nat -> Store, t: nat, v: nat, u: nat, service: Service, m: Manifest, i: nat)
    returns (c: Card)
    requires OnlyGrows(store) && t <= v <= u && Consistent(store(t), store(u), service, m) && i < |m.cards|
    ensures c in store(v).cards && store(v).enabled && MaySee(store(v), service.selection, c)
    ensures Fits(c) && ShowsCard(m.cards[i], c, service.ttl)
  {
    var sel, max := service.selection, service.max;
    var one, two := Read(store(t), sel, max).value.cards, Read(store(u), sel, max).value.cards;
    c := two[i];
    ReadIsSound(store(t), sel, max, one[i]);
    ReadIsSound(store(u), sel, max, two[i]);
    CardStays(store, t, v, u, one[i], two[i]);
    AuthorizationStays(store, t, v, u);
  }
}
