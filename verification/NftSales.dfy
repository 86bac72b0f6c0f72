/**
 The projections of the NFT events that carry money: sales with their collection
 totals, and listings with their floor.

 The sales table is a sequence in insertion order with one row per event
 position. Amounts are unbounded integers.
 */
module NftSales {
  import opened Wrappers

  type Collection = nat
  type Realm = nat

  /** Where an event stands in the chain. */
  datatype Position = Position(block: int, tx: nat, index: nat)

  datatype Sale = Sale(pos: Position, collection: Collection, price: int)

  datatype TokenId = TokenId(collection: Collection, token: nat)

  datatype Token = Token(owner: Option<nat>, listed: bool, price: Option<int>)

  datatype Totals = Totals(volume: int, sales: int, last: Option<int>, floor: Option<int>)

  const EMPTY_TOTALS := Totals(0, 0, None, None)

  datatype Event =
    | Listed(realm: Realm, id: TokenId, price: int)
    | Delisted(realm: Realm, id: TokenId)
    | Purchased(realm: Realm, id: TokenId, buyer: nat, price: int)
    | OfferAccepted(realm: Realm, id: TokenId, buyer: nat, price: int)
    | Sold(realm: Realm, id: TokenId, buyer: nat, price: int, wellFormed: bool)
    | Transferred(realm: Realm, id: TokenId, to: nat)
    | Minted(realm: Realm, id: TokenId, to: nat)
    | Described(realm: Realm, collection: Collection)
    | Unprojected(realm: Realm)

  /** The event is a sale: of an engine that reports no Sale events, or such a Sale event. */
  predicate Sells(ev: Event, saleRealms: set<Realm>) {
    || ((ev.Purchased? || ev.OfferAccepted?) && ev.realm !in saleRealms)
    || (ev.Sold? && ev.wellFormed)
  }

  /** What an event, seen for the first time, makes of the tokens. */
  function TokensAfter(tokens: map<TokenId, Token>, ev: Event, saleRealms: set<Realm>): map<TokenId, Token> {
    if Sells(ev, saleRealms) then tokens[ev.id := Token(Some(ev.buyer), false, None)]
    else
      match ev
      case Listed(_, id, price) =>
        tokens[id := Token(if id in tokens then tokens[id].owner else None, true, Some(price))]
      case Delisted(_, id) => if id in tokens then tokens[id := Token(tokens[id].owner, false, None)] else tokens
      case Transferred(_, id, to) => Owned(tokens, id, to)
      case Minted(_, id, to) => Owned(tokens, id, to)
      case _ => tokens
  }

  function Owned(tokens: map<TokenId, Token>, id: TokenId, to: nat): map<TokenId, Token> {
    tokens[id := if id in tokens then tokens[id].(owner := Some(to)) else Token(Some(to), false, None)]
  }

  // ----- what the totals mean

  function Volume(sales: seq<Sale>, c: Collection): int {
    if sales == [] then 0
    else
      var s := sales[|sales| - 1];
      Volume(sales[..|sales| - 1], c) + if s.collection == c then s.price else 0
  }

  function Count(sales: seq<Sale>, c: Collection): nat {
    if sales == [] then 0
    else Count(sales[..|sales| - 1], c) + if sales[|sales| - 1].collection == c then 1 else 0
  }

  predicate Later(a: Position, b: Position) {
    a.block > b.block || (a.block == b.block && (a.tx > b.tx || (a.tx == b.tx && a.index > b.index)))
  }

  /** The collection's latest sale by chain position, if it has one. */
  function Latest(sales: seq<Sale>, c: Collection): Option<Sale> {
    if sales == [] then None
    else
      var s, best := sales[|sales| - 1], Latest(sales[..|sales| - 1], c);
      if s.collection == c && (best == None || Later(s.pos, best.value.pos)) then Some(s) else best
  }

  function PriceOf(s: Option<Sale>): Option<int> {
    if s == None then None else Some(s.value.price)
  }

  predicate OnSale(tokens: map<TokenId, Token>, id: TokenId, c: Collection) {
    id in tokens && id.collection == c && tokens[id].listed && tokens[id].price.Some?
  }

  /** The least price over the collection's listed tokens, or nothing when none is listed. */
  ghost predicate IsFloor(tokens: map<TokenId, Token>, c: Collection, floor: Option<int>) {
    match floor
    case None => forall id <- tokens :: !OnSale(tokens, id, c)
    case Some(f) =>
      && (exists id <- tokens :: OnSale(tokens, id, c) && tokens[id].price.value == f)
      && (forall id <- tokens :: OnSale(tokens, id, c) ==> f <= tokens[id].price.value)
  }

  function Below(sales: seq<Sale>, height: int): seq<Sale> {
    if sales == [] then []
    else
      var rest := Below(sales[..|sales| - 1], height);
      if sales[|sales| - 1].pos.block < height then rest + [sales[|sales| - 1]] else rest
  }

  predicate Recorded(sales: seq<Sale>, pos: Position) {
    exists i | 0 <= i < |sales| :: sales[i].pos == pos
  }

  lemma {:induction false} BelowMembers(sales: seq<Sale>, height: int, s: Sale)
    ensures s in Below(sales, height) <==> s in sales && s.pos.block < height
  {
    if sales != [] {
      var n := |sales| - 1;
      assert sales == sales[..n] + [sales[n]];
      BelowMembers(sales[..n], height, s);
    }
  }

  /** A collection without a deleted sale keeps its totals. */
  lemma {:induction false} BelowKeeps(sales: seq<Sale>, height: int, c: Collection)
    requires forall i | 0 <= i < |sales| :: sales[i].collection == c ==> sales[i].pos.block < height
    ensures Volume(Below(sales, height), c) == Volume(sales, c)
    ensures Count(Below(sales, height), c) == Count(sales, c)
    ensures Latest(Below(sales, height), c) == Latest(sales, c)
  {
    if sales != [] {
      var n := |sales| - 1;
      var rest := Below(sales[..n], height);
      BelowKeeps(sales[..n], height, c);
      assert (rest + [sales[n]])[..|rest|] == rest;
    }
  }

  lemma {:induction false} LatestIsLatest(sales: seq<Sale>, c: Collection)
    ensures Latest(sales, c) == None ==> forall s <- sales :: s.collection != c
    ensures Latest(sales, c).Some? ==>
      && Latest(sales, c).value in sales && Latest(sales, c).value.collection == c
      && forall s <- sales :: s.collection == c ==> !Later(s.pos, Latest(sales, c).value.pos)
  {
    if sales != [] {
      var n := |sales| - 1;
      assert sales == sales[..n] + [sales[n]];
      LatestIsLatest(sales[..n], c);
    }
  }

  lemma SaleAdded(sales: seq<Sale>, s: Sale, c: Collection)
    ensures Volume(sales + [s], c) == Volume(sales, c) + if s.collection == c then s.price else 0
    ensures Count(sales + [s], c) == Count(sales, c) + if s.collection == c then 1 else 0
    ensures Latest(sales + [s], c) ==
      if s.collection == c && (Latest(sales, c) == None || Later(s.pos, Latest(sales, c).value.pos)) then Some(s)
      else Latest(sales, c)
  {
    assert (sales + [s])[..|sales|] == sales;
  }

  /** The totals of each collection are those of the sales; its floor is its cheapest listing. */
  ghost predicate Consistent(sales: seq<Sale>, tokens: map<TokenId, Token>, totals: map<Collection, Totals>) {
    && (forall i, j | 0 <= i < j < |sales| :: sales[i].pos != sales[j].pos)
    && (forall s <- sales :: s.collection in totals)
    && (forall id <- tokens :: tokens[id].listed ==> id.collection in totals)
    && (forall c <- totals :: totals[c].volume == Volume(sales, c) && totals[c].sales == Count(sales, c))
    && (forall c <- totals :: IsFloor(tokens, c, totals[c].floor))
  }

  function TotalsOf(totals: map<Collection, Totals>, c: Collection): Totals {
    if c in totals then totals[c] else EMPTY_TOTALS
  }

  /** The totals with one more sale. */
  function Credited(totals: map<Collection, Totals>, s: Sale): map<Collection, Totals> {
    var t := TotalsOf(totals, s.collection);
    totals[s.collection := t.(volume := t.volume + s.price, sales := t.sales + 1, last := Some(s.price))]
  }

  lemma SaleKeeps(sales: seq<Sale>, tokens: map<TokenId, Token>, totals: map<Collection, Totals>, s: Sale)
    requires Consistent(sales, tokens, totals) && !Recorded(sales, s.pos)
    ensures Consistent(sales + [s], tokens, Credited(totals, s))
  {
    var totals' := Credited(totals, s);
    forall d <- totals'
      ensures totals'[d].volume == Volume(sales + [s], d) && totals'[d].sales == Count(sales + [s], d)
    {
      SaleAdded(sales, s, d);
      Unsold(sales, d, totals);
    }
    forall d <- totals' ensures IsFloor(tokens, d, totals'[d].floor) {
      if d !in totals { assert forall id <- tokens :: !OnSale(tokens, id, d); }
    }
  }

  /** The new sale is the latest, if it is later than all there. */
  lemma LastKept(sales: seq<Sale>, totals: map<Collection, Totals>, s: Sale)
    requires forall c <- totals :: totals[c].last == PriceOf(Latest(sales, c))
    requires forall x <- sales :: Later(s.pos, x.pos)
    ensures forall c <- Credited(totals, s) :: Credited(totals, s)[c].last == PriceOf(Latest(sales + [s], c))
  {
    LatestIsLatest(sales, s.collection);
    forall c <- Credited(totals, s) ensures Credited(totals, s)[c].last == PriceOf(Latest(sales + [s], c)) {
      SaleAdded(sales, s, c);
    }
  }

  class Projection {
    var sales: seq<Sale>
    var tokens: map<TokenId, Token>
    var totals: map<Collection, Totals>

    constructor ()
      ensures Valid() && sales == [] && tokens == map[] && totals == map[]
    {
      sales, tokens, totals := [], map[], map[];
    }

    /** The totals of each collection are those of its surviving sales; its floor is its cheapest listing. */
    ghost predicate Valid()
      reads this
    {
      Consistent(sales, tokens, totals)
    }

    /** The last sale price is that of the latest surviving sale. */
    ghost predicate LastPrices()
      reads this
    {
      forall c <- totals :: totals[c].last == PriceOf(Latest(sales, c))
    }

    method EnsureCollection(c: Collection)
      modifies this`totals
      ensures totals == if c in old(totals) then old(totals) else old(totals)[c := EMPTY_TOTALS]
    {
      if c !in totals {
        totals := totals[c := EMPTY_TOTALS];
      }
    }

    /** Scans the listed tokens of a collection for the least price. */
    method RecomputeFloor(c: Collection)
      requires c in totals
      modifies this`totals
      ensures exists f :: IsFloor(tokens, c, f) && totals == old(totals)[c := old(totals)[c].(floor := f)]
    {
      var floor: Option<int> := None;
      var rest := tokens.Keys;
      while rest != {}
        invariant rest <= tokens.Keys
        invariant floor.Some? ==> exists id <- tokens :: OnSale(tokens, id, c) && tokens[id].price.value == floor.value
        invariant forall id <- tokens.Keys - rest :: OnSale(tokens, id, c) ==>
                    floor.Some? && floor.value <= tokens[id].price.value
        decreases rest
      {
        var id :| id in rest;
        if OnSale(tokens, id, c) && (floor == None || tokens[id].price.value < floor.value) {
          floor := tokens[id].price;
        }
        rest := rest - {id};
      }
      assert IsFloor(tokens, c, floor);
      totals := totals[c := totals[c].(floor := floor)];
    }

    method ApplyListed(id: TokenId, price: int)
      requires Valid()
      modifies this`tokens, this`totals
      ensures Valid() && (old(LastPrices()) ==> LastPrices())
      ensures tokens ==
        old(tokens)[id := Token(if id in old(tokens) then old(tokens)[id].owner else None, true, Some(price))]
    {
      var owner := if id in tokens then tokens[id].owner else None;
      tokens := tokens[id := Token(owner, true, Some(price))];
      Unsold(sales, id.collection, totals);
      EnsureCollection(id.collection);
      OtherFloors(old(tokens), tokens, id);
      RecomputeFloor(id.collection);
    }

    method ApplyDelisted(id: TokenId)
      requires Valid()
      modifies this`tokens, this`totals
      ensures Valid() && (old(LastPrices()) ==> LastPrices())
      ensures tokens ==
        if id in old(tokens) then old(tokens)[id := Token(old(tokens)[id].owner, false, None)] else old(tokens)
    {
      if id in tokens {
        tokens := tokens[id := Token(tokens[id].owner, false, None)];
      }
      Unsold(sales, id.collection, totals);
      EnsureCollection(id.collection);
      OtherFloors(old(tokens), tokens, id);
      RecomputeFloor(id.collection);
    }

    /** Records a sale once: a replayed event changes nothing. */
    method SettleSale(pos: Position, id: TokenId, buyer: nat, price: int)
      requires Valid()
      modifies this
      ensures Valid()
      ensures Recorded(old(sales), pos) ==> sales == old(sales) && tokens == old(tokens) && totals == old(totals)
      ensures !Recorded(old(sales), pos) ==>
                && sales == old(sales) + [Sale(pos, id.collection, price)]
                && tokens == old(tokens)[id := Token(Some(buyer), false, None)]
      ensures old(LastPrices()) && (forall s <- old(sales) :: Later(pos, s.pos)) ==> LastPrices()
    {
      if Recorded(sales, pos) {
        return;
      }
      RecordSale(pos, id.collection, price);
      tokens := tokens[id := Token(Some(buyer), false, None)];
      OtherFloors(old(tokens), tokens, id);
      RecomputeFloor(id.collection);
    }

    /** Adds a sale to the table, and to the totals of its collection. */
    method RecordSale(pos: Position, c: Collection, price: int)
      requires Valid() && !Recorded(sales, pos)
      modifies this`sales, this`totals
      ensures Valid() && c in totals
      ensures sales == old(sales) + [Sale(pos, c, price)]
      ensures old(LastPrices()) && (forall s <- old(sales) :: Later(pos, s.pos)) ==> LastPrices()
    {
      SaleKeeps(sales, tokens, totals, Sale(pos, c, price));
      if LastPrices() && forall s <- sales :: Later(pos, s.pos) {
        LastKept(sales, totals, Sale(pos, c, price));
      }
      sales := sales + [Sale(pos, c, price)];
      EnsureCollection(c);
      var t := totals[c];
      totals := totals[c := t.(volume := t.volume + price, sales := t.sales + 1, last := Some(price))];
      assert totals == Credited(old(totals), Sale(pos, c, price));
    }

    /** A change of owner leaves listings and totals alone. */
    method ApplyOwner(id: TokenId, to: nat, minted: bool)
      requires Valid()
      modifies this`tokens, this`totals
      ensures Valid() && (old(LastPrices()) ==> LastPrices())
      ensures tokens == Owned(old(tokens), id, to)
      ensures totals == if minted && id.collection !in old(totals)
                        then old(totals)[id.collection := EMPTY_TOTALS] else old(totals)
    {
      tokens := tokens[id := if id in tokens then tokens[id].(owner := Some(to)) else Token(Some(to), false, None)];
      SameFloors(old(tokens), tokens, id);
      Unsold(sales, id.collection, totals);
      if minted {
        EnsureCollection(id.collection);
      }
    }

    /** A collection that is heard of for the first time. */
    method ApplyDescribed(c: Collection)
      requires Valid()
      modifies this`totals
      ensures Valid() && (old(LastPrices()) ==> LastPrices())
    {
      Unsold(sales, c, totals);
      EnsureCollection(c);
      assert forall id <- tokens :: OnSale(tokens, id, c) ==> c in old(totals);
    }

    /** Recomputes the sale columns of some collections from the sales table. */
    method RecomputeTotals(affected: set<Collection>)
      modifies this`totals
      ensures totals.Keys == old(totals).Keys
      ensures forall c <- totals :: totals[c] == if c in affected then Recomputed(old(totals)[c], c) else old(totals)[c]
    {
      var rest := affected;
      while rest != {}
        invariant rest <= affected && totals.Keys == old(totals).Keys
        invariant forall c <- totals ::
                    totals[c] == if c in affected - rest then Recomputed(old(totals)[c], c) else old(totals)[c]
        decreases rest
      {
        var c :| c in rest;
        if c in totals {
          totals := totals[c := Recomputed(totals[c], c)];
        }
        rest := rest - {c};
      }
    }

    function Recomputed(t: Totals, c: Collection): Totals
      reads this`sales
    {
      t.(volume := Volume(sales, c), sales := Count(sales, c), last := PriceOf(Latest(sales, c)))
    }

    /** Deletes the sales from a height on and recomputes the collections that lost one. */
    method Rollback(height: int)
      requires Valid()
      modifies this`sales, this`totals
      ensures Valid() && (old(LastPrices()) ==> LastPrices())
      ensures sales == Below(old(sales), height)
      ensures totals.Keys == old(totals).Keys
    {
      var affected := set s <- sales | s.pos.block >= height :: s.collection;
      BelowDistinct(sales, height);
      forall s: Sale ensures s in Below(sales, height) ==> s in sales { BelowMembers(sales, height, s); }
      forall c | c !in affected
        ensures Volume(Below(sales, height), c) == Volume(sales, c) && Count(Below(sales, height), c) == Count(sales, c)
        ensures Latest(Below(sales, height), c) == Latest(sales, c)
      {
        BelowKeeps(sales, height, c);
      }
      sales := Below(sales, height);
      RecomputeTotals(affected);
    }

    /** One event; `saleRealms` are the engines whose volume comes from Sale events alone. */
    method Dispatch(pos: Position, ev: Event, saleRealms: set<Realm>)
      requires Valid()
      modifies this
      ensures Valid()
      ensures sales == if Sells(ev, saleRealms) && !Recorded(old(sales), pos)
                       then old(sales) + [Sale(pos, ev.id.collection, ev.price)] else old(sales)
      ensures ev.Sold? && ev.wellFormed && !Recorded(old(sales), pos) ==>
        sales == old(sales) + [Sale(pos, ev.id.collection, ev.price)]
      ensures !(ev.Purchased? || ev.OfferAccepted? || (ev.Sold? && ev.wellFormed)) ==> sales == old(sales)
      ensures tokens == if Sells(ev, saleRealms) && Recorded(old(sales), pos) then old(tokens)
                        else TokensAfter(old(tokens), ev, saleRealms)
      ensures old(LastPrices()) && (forall s <- old(sales) :: Later(pos, s.pos) || s.pos == pos) ==> LastPrices()
    {
      match ev
      case Listed(_, id, price) => ApplyListed(id, price);
      case Delisted(_, id) => ApplyDelisted(id);
      case Purchased(realm, id, buyer, price) =>
        if realm !in saleRealms {
          SettleSale(pos, id, buyer, price);
        }
      case OfferAccepted(realm, id, buyer, price) =>
        if realm !in saleRealms {
          SettleSale(pos, id, buyer, price);
        }
      case Sold(_, id, buyer, price, wellFormed) =>
        if wellFormed {
          SettleSale(pos, id, buyer, price);
        }
      case Transferred(_, id, to) => ApplyOwner(id, to, false);
      case Minted(_, id, to) => ApplyOwner(id, to, true);
      case Described(_, c) => ApplyDescribed(c);
      case Unprojected(_) =>
    }
  }

  datatype Change = Emitted(pos: Position, event: Event) | RolledBack(height: int)

  /** The sales that survive a sequence of events, replays and rollbacks. */
  function Surviving(sales: seq<Sale>, changes: seq<Change>, saleRealms: set<Realm>): seq<Sale> {
    if changes == [] then sales
    else
      var before := Surviving(sales, changes[..|changes| - 1], saleRealms);
      match changes[|changes| - 1]
      case Emitted(pos, ev) =>
        if Sells(ev, saleRealms) && !Recorded(before, pos)
        then before + [Sale(pos, ev.id.collection, ev.price)] else before
      case RolledBack(height) => Below(before, height)
  }

  lemma {:induction false} SurvivingThrough(sales: seq<Sale>, a: seq<Change>, b: seq<Change>, saleRealms: set<Realm>)
    ensures Surviving(sales, a + b, saleRealms) == Surviving(Surviving(sales, a, saleRealms), b, saleRealms)
    decreases |b|
  {
    if b == [] {
      assert a + b == a;
    } else {
      var n := |b| - 1;
      assert (a + b)[..|a + b| - 1] == a + b[..n];
      SurvivingThrough(sales, a, b[..n], saleRealms);
    }
  }

  /** Where an engine reports a settlement: as a purchase or an accepted offer, as a Sale event, or as both. */
  datatype Report =
    | Told(told: Position)
    | SoldOnly(sold: Position)
    | Both(told: Position, sold: Position, soldFirst: bool)

  /** A token changes hands for money. */
  datatype Settlement = Settlement(realm: Realm, id: TokenId, buyer: nat, price: int, offer: bool, report: Report)

  /** Engines whose volume comes from Sale events report one for every settlement; the others have no such events. */
  predicate ReportedFor(s: Settlement, saleRealms: set<Realm>) {
    s.realm in saleRealms <==> !s.report.Told?
  }

  function Reports(s: Settlement): seq<Change> {
    var sale := Sold(s.realm, s.id, s.buyer, s.price, true);
    var other := if s.offer then OfferAccepted(s.realm, s.id, s.buyer, s.price)
                 else Purchased(s.realm, s.id, s.buyer, s.price);
    match s.report
    case Told(told) => [Emitted(told, other)]
    case SoldOnly(sold) => [Emitted(sold, sale)]
    case Both(told, sold, soldFirst) =>
      if soldFirst then [Emitted(sold, sale), Emitted(told, other)] else [Emitted(told, other), Emitted(sold, sale)]
  }

  function RowOf(s: Settlement): Sale {
    Sale(if s.report.Told? then s.report.told else s.report.sold, s.id.collection, s.price)
  }

  lemma SettledOnce(sales: seq<Sale>, s: Settlement, saleRealms: set<Realm>)
    requires ReportedFor(s, saleRealms) && !Recorded(sales, RowOf(s).pos)
    ensures Surviving(sales, Reports(s), saleRealms) == sales + [RowOf(s)]
  {
    var r := Reports(s);
    assert r[..|r| - 1] == if |r| == 1 then [] else [r[0]];
    if |r| == 2 {
      assert [r[0]][..0] == [];
      assert Surviving(sales, [r[0]], saleRealms) == if s.report.soldFirst then sales + [RowOf(s)] else sales;
    }
  }

  function AllReports(ss: seq<Settlement>): seq<Change> {
    if ss == [] then [] else AllReports(ss[..|ss| - 1]) + Reports(ss[|ss| - 1])
  }

  function AllRows(ss: seq<Settlement>): (rows: seq<Sale>)
    ensures |rows| == |ss| && forall i | 0 <= i < |ss| :: rows[i] == RowOf(ss[i])
  {
    if ss == [] then [] else AllRows(ss[..|ss| - 1]) + [RowOf(ss[|ss| - 1])]
  }

  /** Every settlement adds one sale, with its price, however its engine reports it. */
  lemma {:induction false} OneSaleEach(sales: seq<Sale>, ss: seq<Settlement>, saleRealms: set<Realm>)
    requires forall i | 0 <= i < |ss| :: ReportedFor(ss[i], saleRealms) && !Recorded(sales, RowOf(ss[i]).pos)
    requires forall i, j | 0 <= i < j < |ss| :: RowOf(ss[i]).pos != RowOf(ss[j]).pos
    ensures Surviving(sales, AllReports(ss), saleRealms) == sales + AllRows(ss)
  {
    if ss == [] {
      assert AllRows(ss) == [] && sales + [] == sales;
    } else {
      var rest, s := ss[..|ss| - 1], ss[|ss| - 1];
      OneSaleEach(sales, rest, saleRealms);
      SurvivingThrough(sales, AllReports(rest), Reports(s), saleRealms);
      SettledOnce(sales + AllRows(rest), s, saleRealms);
      assert sales + AllRows(rest) + [RowOf(s)] == sales + AllRows(ss);
    }
  }

  /** What they make of the tokens; a rollback leaves them. */
  function TokensLeft(sales: seq<Sale>, tokens: map<TokenId, Token>, changes: seq<Change>, saleRealms: set<Realm>):
    map<TokenId, Token>
  {
    if changes == [] then tokens
    else
      var n := |changes| - 1;
      var before := TokensLeft(sales, tokens, changes[..n], saleRealms);
      match changes[n]
      case Emitted(pos, ev) =>
        if Sells(ev, saleRealms) && Recorded(Surviving(sales, changes[..n], saleRealms), pos) then before
        else TokensAfter(before, ev, saleRealms)
      case RolledBack(_) => before
  }

  /** Over any sequence of events, replays and rollbacks the totals and floors are those of what survives. */
  method Project(p: Projection, changes: seq<Change>, saleRealms: set<Realm>)
    requires p.Valid()
    modifies p
    ensures p.Valid()
    ensures p.sales == Surviving(old(p.sales), changes, saleRealms)
    ensures p.tokens == TokensLeft(old(p.sales), old(p.tokens), changes, saleRealms)
  {
    for i := 0 to |changes|
      invariant p.Valid()
      invariant p.sales == Surviving(old(p.sales), changes[..i], saleRealms)
      invariant p.tokens == TokensLeft(old(p.sales), old(p.tokens), changes[..i], saleRealms)
    {
      assert changes[..i + 1][..i] == changes[..i];
      match changes[i]
      case Emitted(pos, ev) => p.Dispatch(pos, ev, saleRealms);
      case RolledBack(height) => p.Rollback(height);
    }
    assert changes[..|changes|] == changes;
  }

  lemma {:induction false} BelowDistinct(sales: seq<Sale>, height: int)
    requires forall i, j | 0 <= i < j < |sales| :: sales[i].pos != sales[j].pos
    ensures forall i, j | 0 <= i < j < |Below(sales, height)| ::
      Below(sales, height)[i].pos != Below(sales, height)[j].pos
  {
    if sales != [] {
      var n := |sales| - 1;
      BelowDistinct(sales[..n], height);
      var rest := Below(sales[..n], height);
      forall i | 0 <= i < |rest| ensures rest[i].pos != sales[n].pos {
        BelowMembers(sales[..n], height, rest[i]);
        assert rest[i] in sales[..n];
      }
    }
  }

  /** A collection without a totals row has no sales. */
  lemma {:induction false} Unsold(sales: seq<Sale>, c: Collection, totals: map<Collection, Totals>)
    requires forall s <- sales :: s.collection in totals
    ensures c !in totals ==> Volume(sales, c) == 0 && Count(sales, c) == 0 && Latest(sales, c) == None
  {
    if sales != [] {
      var n := |sales| - 1;
      assert sales[n] in sales;
      Unsold(sales[..n], c, totals);
    }
  }

  /** A change of one token leaves the floors of the other collections. */
  lemma OtherFloors(tokens: map<TokenId, Token>, tokens': map<TokenId, Token>, id: TokenId)
    requires forall x :: x != id ==> (x in tokens <==> x in tokens') && (x in tokens ==> tokens[x] == tokens'[x])
    ensures forall c, f :: c != id.collection && IsFloor(tokens, c, f) ==> IsFloor(tokens', c, f)
  {
    forall c, f | c != id.collection && IsFloor(tokens, c, f) ensures IsFloor(tokens', c, f) {
      assert forall x :: OnSale(tokens, x, c) <==> OnSale(tokens', x, c);
      if f.Some? {
        var x :| x in tokens && OnSale(tokens, x, c) && tokens[x].price.value == f.value;
        assert OnSale(tokens', x, c);
      }
    }
  }

  lemma SameFloors(tokens: map<TokenId, Token>, tokens': map<TokenId, Token>, id: TokenId)
    requires forall x :: x != id ==> (x in tokens <==> x in tokens') && (x in tokens ==> tokens[x] == tokens'[x])
    requires forall c :: OnSale(tokens, id, c) <==> OnSale(tokens', id, c)
    requires id in tokens && id in tokens' ==> tokens[id].price == tokens'[id].price
    ensures forall c, f :: IsFloor(tokens, c, f) ==> IsFloor(tokens', c, f)
  {
    forall c, f | IsFloor(tokens, c, f) ensures IsFloor(tokens', c, f) {
      assert forall x :: OnSale(tokens, x, c) <==> OnSale(tokens', x, c);
      if f.Some? {
        var x :| x in tokens && OnSale(tokens, x, c) && tokens[x].price.value == f.value;
        assert OnSale(tokens', x, c);
      }
    }
  }
}
